// A control client as the program keeps it: fields updated in place by each function of control.c, each
// proved to do what Control says to the state it keeps.

module ControlClient {
  import opened GridCell
  import opened Control
  import opened ControlQueues
  import opened ControlInvariants
  import opened ControlLines
  import opened ControlPanes
  import opened ControlWrites
  import opened ControlCallback
  import opened ControlRuns

  // ----- What writing lines leaves alone, whatever the state -----

  lemma {:induction false} PopAllFrame(s: State, p: nat)
    requires p in s.panes
    ensures var r := PopAll(s, p); r.deferred == s.deferred && r.tree == s.tree && r.panes.Keys == s.panes.Keys
    decreases |s.panes[p].blocks|
  {
    hide Without;
    if s.panes[p].blocks != [] {
      PopAllFrame(PopPane(s, p), p);
    }
  }

  lemma {:induction false} DiscardPanesFrame(s: State, ids: seq<nat>)
    ensures var r := DiscardPanes(s, ids); r.deferred == s.deferred && r.tree == s.tree && r.panes.Keys == s.panes.Keys
    decreases ids
  {
    hide PopAll;
    if ids != [] {
      if ids[0] in s.panes {
        PopAllFrame(s.(exact := s.exact - {ids[0]}), ids[0]);
        DiscardPanesFrame(DiscardPane(s, ids[0]), ids[1..]);
      } else {
        DiscardPanesFrame(s, ids[1..]);
      }
    }
  }

  lemma {:induction false} DiscardPanesDepth(s: State, ids: seq<nat>)
    ensures DiscardPanes(s, ids).depth == s.depth
    decreases ids
  {
    hide PopAll;
    if ids != [] {
      if ids[0] in s.panes {
        PopAllDepth(s.(exact := s.exact - {ids[0]}), ids[0]);
        DiscardPanesDepth(DiscardPane(s, ids[0]), ids[1..]);
      } else {
        DiscardPanesDepth(s, ids[1..]);
      }
    }
  }

  lemma {:induction false} PopAllDepth(s: State, p: nat)
    requires p in s.panes
    ensures PopAll(s, p).depth == s.depth
    decreases |s.panes[p].blocks|
  {
    hide Without;
    if s.panes[p].blocks != [] {
      PopAllDepth(PopPane(s, p), p);
    }
  }

  ghost predicate SameDeferred(s: State, r: State) {
    r.deferred == s.deferred && r.panes.Keys == s.panes.Keys && r.depth == s.depth
  }

  lemma KillDeferred(s: State)
    ensures SameDeferred(s, (if s.exit then s else Discard(s.(exit := true))).(dead := true))
  {
    hide DiscardPanes;
    DiscardPanesFrame(s.(exit := true), s.tree);
    DiscardPanesDepth(s.(exit := true), s.tree);
  }

  lemma LineDeferred(s: State, t: nat, msg: Msg)
    ensures SameDeferred(s, LineOut(s, msg)) && SameDeferred(s, LineQueued(s, t, msg))
  {
  }

  lemma WriteLineDeferred(s: State, e: Env, msg: Msg)
    ensures SameDeferred(s, WriteLine(s, e, msg))
  {
    hide WriteLine, Discard, LineOut, LineQueued;
    LineDeferred(s, e.now, msg);
    WriteLineCases(s, e, msg);
    if !s.dead && s.length + s.replyBytes + |msg.text| + 1 >= CONTROL_MAXIMUM_REPLY_BUFFER {
      hide SameDeferred;
      KillDeferred(s);
    }
  }

  // What has happened to a client.
  datatype Past = Past(out: seq<Item>, owner: map<nat, nat>, log: seq<Entry>, notices: seq<Msg>,
                       exact: set<nat>, mark: map<nat, nat>, base: map<nat, nat>, held: bool)

  class Client {
    // struct control_state and the client's flags
    var blocks: map<nat, Block>
    var all: seq<nat>
    var panes: map<nat, Pane>
    var tree: seq<nat>
    var pending: seq<nat>
    var pendingCount: nat
    var replyBytes: nat
    var depth: nat
    var deferred: seq<Msg>
    var exit: bool
    var dead: bool
    var ignoring: bool
    var suspended: bool
    var length: nat
    var next: nat

    ghost var past: Past

    ghost function St(): State
      reads this
    {
      State(blocks, all, panes, tree, pending, pendingCount, replyBytes, depth, deferred, exit, dead, ignoring,
            length, false, next, past.out, past.owner, past.log, past.notices, past.exact, past.mark, past.base,
            Raised(suspended, past.held))
    }

    // control_start
    constructor ()
      ensures St() == Start()
    {
      blocks, all, panes, tree, pending, pendingCount := map[], [], map[], [], [], 0;
      replyBytes, depth, deferred, exit, dead, ignoring, length, next := 0, 0, [], false, false, false, 0, 0;
      suspended := false;
      past := Past([], map[], [], [], {}, map[], map[], false);
    }

    method RemoveBlock(b: nat)
      modifies this
      ensures St() == FreeBlock(old(St()), b)
    {
      hide Without;
      if b in blocks {
        if blocks[b].Text? {
          var size := |blocks[b].msg.text| + 1;
          replyBytes := if replyBytes > size then replyBytes - size else 0;
        }
        blocks, all := blocks - {b}, Without(all, b);
      }
    }

    method DiscardOutput(p: nat)
      requires p in panes
      modifies this
      ensures St() == DiscardPane(old(St()), p)
    {
      hide FreeBlock;
      past := past.(exact := past.exact - {p});
      ghost var s := St();
      while panes[p].blocks != []
        invariant p in panes && PopAll(St(), p) == PopAll(s, p)
        decreases |panes[p].blocks|
      {
        ghost var s1 := St();
        var cp := panes[p];
        panes := panes[p := cp.(blocks := cp.blocks[1..])];
        RemoveBlock(cp.blocks[0]);
        FreeBlockPanes(s1.(panes := s1.panes[p := cp.(blocks := cp.blocks[1..])]), cp.blocks[0]);
        assert St() == PopPane(s1, p);
      }
    }

    method DiscardAll()
      modifies this
      ensures St() == Discard(old(St()))
    {
      hide DiscardPane;
      var ids, i := tree, 0;
      ghost var s := St();
      assert ids[0..] == ids;
      while i < |ids|
        invariant i <= |ids| && DiscardPanes(St(), ids[i..]) == DiscardPanes(s, ids)
      {
        assert ids[i..][0] == ids[i] && ids[i..][1..] == ids[i + 1..];
        if ids[i] in panes {
          DiscardOutput(ids[i]);
        }
        i := i + 1;
      }
      assert ids[|ids|..] == [];
    }

    method SetOffsets(p: nat, at: nat)
      requires p in panes
      modifies this
      ensures St() == Sync(old(St()), p, at)
    {
      panes := panes[p := panes[p].(offset := at, queued := at)];
      past := past.(exact := past.exact + {p}, mark := past.mark[p := |past.out|], base := past.base[p := at]);
    }

    method GetOrAddPane(e: Env, p: nat)
      requires p in e.parsed
      modifies this
      ensures St() == AddPane(old(St()), e, p)
      ensures p in panes
    {
      hide InsertSorted;
      if p !in panes {
        panes, tree := panes[p := Pane(0, 0, false, false, false, [])], InsertSorted(tree, p);
        SetOffsets(p, e.parsed[p]);
      }
    }

    // ----- Lines -----

    method TooMuchBuffered(added: nat) returns (drop: bool)
      modifies this
      ensures (drop, St()) == CheckReplyBuffer(old(St()), added)
    {
      hide DiscardPanes;
      if dead {
        return true;
      }
      if length + replyBytes + added < CONTROL_MAXIMUM_REPLY_BUFFER {
        return false;
      }
      if !exit {
        exit := true;
        DiscardAll();
      }
      dead := true;
      return true;
    }

    method SendLine(msg: Msg)
      modifies this
      ensures St() == LineOut(old(St()), msg)
    {
      past := past.(log := past.log + [Entry(next, msg)], out := past.out + [Line(next, msg)]);
      length, next := length + |msg.text| + 1, next + 1;
    }

    // A block at the end of the client queue.
    method NewBlock(cb: Block)
      modifies this
      ensures St() == old(St().(blocks := blocks[next := cb], all := all + [next], next := next + 1))
    {
      blocks, all := blocks[next := cb], all + [next];
      next := next + 1;
    }

    method StoreLine(e: Env, msg: Msg)
      modifies this
      ensures St() == LineQueued(old(St()), e.now, msg)
    {
      past := past.(log := past.log + [Entry(next, msg)]);
      NewBlock(Text(msg, e.now));
      replyBytes := replyBytes + |msg.text| + 1;
    }

    // control_write_line
    method PutLine(e: Env, msg: Msg)
      modifies this
      ensures St() == WriteLine(old(St()), e, msg)
    {
      hide Discard, WriteLine, LineOut, LineQueued;
      WriteLineCases(St(), e, msg);
      var drop := TooMuchBuffered(|msg.text| + 1);
      if drop {
        return;
      }
      if all == [] {
        SendLine(msg);
      } else {
        StoreLine(e, msg);
      }
    }

    method PutDeferred(e: Env)
      modifies this
      ensures St() == FlushDeferred(old(St()), e)
    {
      hide WriteLine;
      ghost var s := St();
      while deferred != []
        invariant FlushDeferred(St(), e) == FlushDeferred(s, e)
        decreases |deferred|
      {
        ghost var s1 := St();
        var msg := deferred[0];
        deferred := deferred[1..];
        WriteLineDeferred(St(), e, msg);
        PutLine(e, msg);
      }
    }

    method PutGuard(e: Env, msg: Msg)
      modifies this
      ensures St() == WriteGuard(old(St()), e, msg)
    {
      hide WriteLine, FlushDeferred;
      if msg.kind == Begin {
        depth := depth + 1;
      }
      PutLine(e, msg);
      if msg.kind != Begin && depth > 0 {
        depth := depth - 1;
        if depth == 0 {
          PutDeferred(e);
        }
      }
    }

    method Notify(e: Env, msg: Msg)
      modifies this
      ensures St() == NotifyWrite(old(St()), e, msg)
    {
      hide WriteLine;
      past := past.(notices := past.notices + [msg]);
      if depth == 0 {
        PutLine(e, msg);
      } else {
        deferred := deferred + [msg];
      }
    }

    // ----- Pane output -----

    method TooOld(e: Env, p: nat) returns (stop: bool)
      requires p in panes
      modifies this
      ensures (stop, St()) == CheckAge(old(St()), e, p)
    {
      hide NotifyWrite, DiscardPane, Discard;
      var cp := panes[p];
      if cp.blocks == [] || cp.blocks[0] !in blocks || blocks[cp.blocks[0]].t >= e.now {
        return false;
      }
      var age := e.now - blocks[cp.blocks[0]].t;
      if e.pauseAfter {
        if age < e.pauseAge {
          return false;
        }
        panes := panes[p := cp.(paused := true)];
        DiscardOutput(p);
        Notify(e, PauseMsg(p));
      } else {
        if age < CONTROL_MAXIMUM_AGE {
          return false;
        }
        exit := true;
        DiscardAll();
      }
      return true;
    }

    method QueueOutput(e: Env, p: nat)
      requires p in panes && p in e.data && panes[p].queued < |e.data[p]|
      modifies this
      ensures St() == PushOutput(old(St()), e, p)
    {
      var cp := panes[p];
      var size: nat := |e.data[p]| - cp.queued;
      past := past.(owner := past.owner[next := p]);
      panes := panes[p := cp.(queued := |e.data[p]|, blocks := cp.blocks + [next], pending := true)];
      if !cp.pending {
        pending, pendingCount := pending + [p], pendingCount + 1;
      }
      NewBlock(Output(size, e.now));
    }

    // control_write_output
    method PaneOutput(e: Env, p: nat)
      requires p in e.data && p in e.parsed && Inv(St(), e)
      modifies this
      ensures St() == WriteOutput(old(St()), e, p)
      ensures Inv(St(), e) <==> !Undiscarded(old(St()), e, p)
    {
      hide Inv, CheckAge, AddPane, PushOutput, Sync;
      ghost var s := St();
      WriteOutputKeeps(s, e, p);
      if p !in e.visible {
        return;
      }
      if ignoring || suspended || exit {
        if p in panes {
          SetOffsets(p, |e.data[p]|);
        }
        return;
      }
      AddPaneInv(s, e, p);
      GetOrAddPane(e, p);
      if panes[p].off || panes[p].paused {
        SetOffsets(p, |e.data[p]|);
        return;
      }
      CheckAgeKeeps(St(), e, p);
      var stop := TooOld(e, p);
      if !stop && panes[p].queued < |e.data[p]| {
        QueueOutput(e, p);
      }
    }

    method PaneOn(e: Env, p: nat)
      requires p in e.parsed
      modifies this
      ensures St() == SetPaneOn(old(St()), e, p)
      ensures p in e.data && Inv(old(St()), e) ==> Inv(St(), e)
    {
      hide Inv;
      ghost var s := St();
      if p in e.data && Inv(s, e) {
        SetPaneOnKeeps(s, e, p);
      }
      if p in panes && panes[p].off {
        panes := panes[p := panes[p].(off := false)];
        SetOffsets(p, e.parsed[p]);
      }
    }

    method PaneContinue(e: Env, p: nat)
      requires p in e.parsed
      modifies this
      ensures St() == ContinuePane(old(St()), e, p)
      ensures p in e.data && Inv(old(St()), e) ==> Inv(St(), e)
    {
      hide NotifyWrite, Inv;
      ghost var s := St();
      if p in e.data && Inv(s, e) {
        ContinuePaneKeeps(s, e, p);
      }
      if p in panes && panes[p].paused {
        panes := panes[p := panes[p].(paused := false)];
        SetOffsets(p, e.parsed[p]);
        Notify(e, ContinueMsg(p));
      }
    }

    method PanePause(e: Env, p: nat)
      requires p in e.parsed
      modifies this
      ensures St() == PausePane(old(St()), e, p)
      ensures p in e.data && Inv(old(St()), e) ==> Inv(St(), e)
    {
      hide NotifyWrite, AddPane, DiscardPane, Inv;
      ghost var s := St();
      if p in e.data && Inv(s, e) {
        PausePaneKeeps(s, e, p);
      }
      GetOrAddPane(e, p);
      if !panes[p].paused {
        panes := panes[p := panes[p].(paused := true)];
        DiscardOutput(p);
        Notify(e, PauseMsg(p));
      }
    }

    method PaneReset(e: Env, p: nat)
      requires p in e.parsed
      modifies this
      ensures St() == ResetPane(old(St()), e, p)
    {
      hide PopAll;
      if p in panes {
        PopAllFrame(St().(exact := past.exact - {p}), p);
        DiscardOutput(p);
        SetOffsets(p, e.parsed[p]);
      }
    }

    method PaneOff(e: Env, p: nat)
      requires p in e.parsed
      modifies this
      ensures St() == SetPaneOff(old(St()), e, p)
      ensures p in e.data && Inv(old(St()), e) ==> Inv(St(), e)
    {
      hide PopAll, AddPane, Inv;
      ghost var s := St();
      if p in e.data && Inv(s, e) {
        SetPaneOffKeeps(s, e, p);
      }
      GetOrAddPane(e, p);
      PopAllFrame(St().(exact := past.exact - {p}), p);
      DiscardOutput(p);
      SetOffsets(p, e.parsed[p]);
      panes := panes[p := panes[p].(off := true)];
    }

    // control_reset_offsets
    method ForgetPanes()
      modifies this
      ensures St() == ResetOffsets(old(St()))
    {
      hide Discard;
      DiscardAll();
      panes, tree, pending, pendingCount := map[], [], [], 0;
      past := past.(exact := {});
    }

    // ----- Writing to the client -----

    method PutQueuedLine()
      requires HeadIsText(St())
      modifies this
      ensures St() == PopLine(old(St()))
    {
      hide FreeBlock;
      var b := all[0];
      past := past.(out := past.out + [Line(b, blocks[b].msg)]);
      length := length + |blocks[b].msg.text| + 1;
      RemoveBlock(b);
    }

    // control_flush_all_blocks
    method PutQueuedLines()
      modifies this
      ensures St() == FlushAll(old(St()))
    {
      hide PopLine;
      ghost var s := St();
      while all != [] && all[0] in blocks && blocks[all[0]].Text?
        invariant FlushAll(St()) == FlushAll(s)
        decreases |blocks|
      {
        PopLineEffect(St());
        PutQueuedLine();
      }
    }

    // control_write_data
    method PutMessage(ghost message: seq<Item>, bytes: nat)
      requires message != []
      modifies this
      ensures St() == Push(old(St()), message, bytes)
    {
      past := past.(out := past.out + message);
      length := length + bytes + 1;
    }

    method TakePiece(p: nat, size: nat)
      requires p in panes && panes[p].blocks != [] && panes[p].blocks[0] in blocks
      requires blocks[panes[p].blocks[0]].Output? && size <= blocks[panes[p].blocks[0]].size
      modifies this
      ensures St() == Take(old(St()), p, size)
    {
      hide FreeBlock;
      var cp := panes[p];
      var b := cp.blocks[0];
      panes := panes[p := cp.(offset := cp.offset + size)];
      if blocks[b].size == size {
        panes := panes[p := panes[p].(blocks := cp.blocks[1..])];
        RemoveBlock(b);
      } else {
        blocks := blocks[b := Output(blocks[b].size - size, blocks[b].t)];
      }
    }

    // ----- control_write_pending -----

    // One turn of the loop, with the message so far in hand.
    method WriteTurn(e: Env, p: nat, limit: nat, used: nat, ghost message: seq<Item>, begun: bool, bytes: nat)
      returns (used1: nat, ghost message1: seq<Item>, begun1: bool, bytes1: nat, stopped: bool)
      requires RunOk(Run(St(), used, message, bytes, false), e, p) && p in e.data && p in panes
      requires panes[p].blocks != [] && used < limit && (begun <==> message != [])
      modifies this
      ensures Run(St(), used1, message1, bytes1, stopped)
              == PendingStep(Run(old(St()), used, message, bytes, false), e, p, limit)
      ensures begun1 <==> message1 != []
    {
      hide RunOk, Firm, CheckAge, Quiet, Guards, Marked, MessageOf, Take, FlushAll, Header, Escape;
      ghost var s := St();
      RunOkParts(Run(s, used, message, bytes, false), e, p);
      var f := e.(now := e.now + e.later(2 * Sizes(all, blocks)));
      FirmTick(Whole(s, message), e, f.now);
      CheckAgeMid(s, message, f, p);
      var stop := TooOld(f, p);
      if stop {
        return used, [], false, 0, true;
      }
      EnoughData(Whole(s, message), e, p);
      var cp, b := panes[p], panes[p].blocks[0];
      var cb := blocks[b];
      var age := if cb.t < e.now then e.now - cb.t else 0;
      var size := if cb.size > limit - used then limit - used else cb.size;
      assert cp.offset + size <= |e.data[p]|; // so there is always enough data
      used1, message1, begun1, stopped := used + size, message + [Data(p, b, cp.offset, size)], true, false;
      bytes1 := (if begun then bytes else |Header(e, p, age)|) + |Escape(e.data[p][cp.offset..cp.offset + size])|;
      TakePiece(p, size);
      if cb.size == size && all != [] && all[0] in blocks && blocks[all[0]].Text? {
        PutMessage(message1, bytes1);
        PutQueuedLines();
        message1, begun1, bytes1 := [], false, 0;
      }
    }

    method WritePane(e: Env, p: nat, limit: nat) returns (more: bool)
      requires Inv(St(), e) && p in panes && p in e.data && limit > 0
      modifies this
      ensures (more, St()) == WritePending(old(St()), e, p, limit)
    {
      hide RunOk, Inv, PendingStep, DiscardPane, FlushAll;
      if p !in e.visible {
        DiscardOutput(p);
        PutQueuedLines();
        return false;
      }
      ghost var s := St();
      ghost var message: seq<Item> := [];
      var used, begun, bytes, stopped := 0, false, 0, false;
      var f := e.(now := e.now + e.later(2 * Sizes(all, blocks) + 1));
      InvTick(s, e, f.now);
      InvRunOk(s, f, p);
      while !stopped && used < limit && panes[p].blocks != []
        invariant p in panes && used <= limit && (begun <==> message != [])
        invariant RunOk(Run(St(), used, message, bytes, stopped), f, p)
        invariant PendingLoop(Run(St(), used, message, bytes, stopped), f, p, limit)
                  == PendingLoop(Run(s, 0, [], 0, false), f, p, limit)
        decreases limit - used, !stopped
      {
        ghost var r := Run(St(), used, message, bytes, stopped);
        PendingStepKeeps(r, f, p, limit);
        used, message, begun, bytes, stopped := WriteTurn(f, p, limit, used, message, begun, bytes);
        StepParts(r, Run(St(), used, message, bytes, stopped), f, p, limit);
      }
      if begun {
        PutMessage(message, bytes);
      }
      more := panes[p].blocks != [];
    }

    // ----- control_write_callback -----

    method Unpend(p: nat)
      requires p in panes
      modifies this
      ensures St() == RemovePending(old(St()), p)
    {
      hide Without;
      pending := Without(pending, p);
      panes := panes[p := panes[p].(pending := false)];
      pendingCount := if pendingCount > 0 then pendingCount - 1 else 0;
    }

    // One pass over the pending panes.
    method WriteRound(e: Env, limit: nat)
      requires Inv(St(), e) && limit > 0
      modifies this
      ensures St() == Round(old(St()), e, limit, old(pending)) && Inv(St(), e)
    {
      hide Inv, WritePending, RemovePending, Distinct;
      ghost var s := St();
      InvPending(s, e);
      var list, i := pending, 0;
      assert list[0..] == list;
      while i < |list| && length < CONTROL_BUFFER_HIGH
        invariant i <= |list| && Inv(St(), e)
        invariant Distinct(list[i..]) && forall q :: q in list[i..] ==> q in pending
        invariant Round(St(), e, limit, list[i..]) == Round(s, e, limit, list)
      {
        ghost var s1 := St();
        var p := list[i];
        ListHead(list, i);
        InvPending(s1, e);
        WritePendingKeeps(s1, e, p, limit);
        var more := WritePane(e, p, limit);
        if !more {
          UnpendKeeps(St(), e, p);
          Unpend(p);
        }
        i := i + 1;
      }
    }

    // How much each pane may write in a round.
    method PaneShare() returns (limit: nat)
      requires length < CONTROL_BUFFER_HIGH && pendingCount != 0
      ensures limit == Limit(St())
    {
      limit := (CONTROL_BUFFER_HIGH - length) / pendingCount / 3; // 3 bytes for \\xxx
      if limit < CONTROL_WRITE_MINIMUM {
        limit := CONTROL_WRITE_MINIMUM;
      }
    }

    method Written(e: Env)
      requires Inv(St(), e)
      modifies this
      ensures St() == WriteCallback(old(St()), e) && Inv(St(), e)
      ensures length >= CONTROL_BUFFER_HIGH || pending == []
    {
      hide Inv, FlushAll, Round, Limit, Work;
      ghost var s := FlushAll(St());
      WriteCallbackKeeps(St(), e);
      FlushAllInv(St(), e);
      PutQueuedLines();
      while length < CONTROL_BUFFER_HIGH && pendingCount != 0
        invariant Inv(St(), e) && Rounds(St(), e) == Rounds(s, e)
        decreases Work(St())
      {
        InvPending(St(), e);
        LimitPositive(St());
        RoundKeeps(St(), e, Limit(St()), pending);
        var limit := PaneShare();
        WriteRound(e, limit);
      }
    }
  }

  lemma InvPending(s: State, e: Env)
    requires Inv(s, e)
    ensures !s.fatal && s.pendingCount == |s.pending| && Distinct(s.pending)
    ensures forall p :: p in s.pending ==> p in s.panes && p in e.data
  {
    hide Firm, Quiet, Guards, Distinct;
    PendingData(s, e);
  }

  lemma FlushAllInv(s: State, e: Env)
    requires Inv(s, e)
    ensures Inv(FlushAll(s), e)
  {
    hide Firm, Quiet, Guards, FlushAll, Flushed;
    FlushAllKeeps(s, e);
    FlushedSound(s, FlushAll(s));
  }

  lemma ListHead(list: seq<nat>, i: nat)
    requires i < |list| && Distinct(list[i..])
    ensures list[i..][0] == list[i] && list[i..][1..] == list[i + 1..] && Distinct(list[i + 1..])
    ensures list[i] in list[i..] && forall q :: q in list[i + 1..] ==> q in list[i..] && q != list[i]
  {
  }

  lemma RunOkParts(r: Run, e: Env, p: nat)
    requires RunOk(r, e, p)
    ensures Firm(Whole(r.s, r.message), e) && Quiet(r.s) && Guards(r.s) && Marked(r.s) && MessageOf(r.message, p)
    ensures p in r.s.panes
  {
  }

  lemma InvTick(s: State, e: Env, now: nat)
    requires Inv(s, e)
    ensures Inv(s, e.(now := now))
  {
    hide Firm, Quiet, Guards;
    FirmTick(s, e, now);
  }

  lemma InvRunOk(s: State, e: Env, p: nat)
    requires Inv(s, e) && p in s.panes
    ensures RunOk(Run(s, 0, [], 0, false), e, p)
  {
    hide Firm, Quiet, Guards;
    assert Whole(s, []) == s;
    FirmMarked(s, e);
  }

  lemma StepParts(r: Run, r1: Run, e: Env, p: nat, limit: nat)
    requires RunOk(r, e, p) && RunOk(r1, e, p) && !r.stopped && r.used < limit && p in e.data
    requires r.s.panes[p].blocks != [] && r1 == PendingStep(r, e, p, limit) && Turned(r, r1, limit)
    ensures p in r1.s.panes && r1.used <= limit && r.used <= r1.used && (r1.used == r.used ==> r1.stopped)
    ensures PendingLoop(r1, e, p, limit) == PendingLoop(r, e, p, limit)
  {
    hide Firm, Quiet, Guards, Marked, MessageOf, PendingStep, Onward, Sizes;
  }
}

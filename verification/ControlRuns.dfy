// Every run of a control client.

module ControlRuns {
  import opened GridCell
  import opened Control
  import opened ControlQueues
  import opened ControlInvariants
  import opened ControlLines
  import opened ControlPanes
  import opened ControlWrites
  import opened ControlCallback

  // What can happen to a control client. Exited is any exit that discards output, as the client being too
  // far behind does, and the discarding of a client that was told to exit earlier; Detached is an exit that
  // leaves its output for that; Ignored is the no-output flag being set or cleared; Suspended and Woken are a
  // client stopped by suspend-client and started again.
  datatype Op =
    | Opened(text: string) | Closed(text: string) | Replied(text: string) | Notified(text: string)
    | PaneWrote(p: nat) | TurnedOn(p: nat) | TurnedOff(p: nat) | Continued(p: nat) | Paused(p: nat)
    | Replaced(p: nat, data: seq<byte>, parsed: nat) | Ignored(on: bool) | Exited | Detached | Suspended | Woken
    | Drained(n: nat) | Writable

  datatype Event = Event(op: Op, env: Env)

  // What an operation finds: pane data has grown, unless it is being replaced.
  ghost predicate Possible(e: Env, x: Event) {
    match x.op
    case Replaced(p, data, parsed) =>
      && p in e.data && p in e.parsed && parsed <= |data|
      && x.env == e.(data := e.data[p := data], parsed := e.parsed[p := parsed])
    case _ =>
      && Grows(e, x.env)
      && (x.op.PaneWrote? || x.op.TurnedOn? || x.op.TurnedOff? || x.op.Continued? || x.op.Paused? ==> x.op.p in x.env.data)
  }

  function Step(s: State, x: Event): State
    requires x.op.PaneWrote? || x.op.TurnedOn? || x.op.TurnedOff? || x.op.Continued? || x.op.Paused? || x.op.Replaced? ==>
      x.op.p in x.env.data && x.op.p in x.env.parsed
  {
    match x.op
    case Opened(text) => WriteGuard(s, x.env, Msg(Begin, text))
    case Closed(text) => WriteGuard(s, x.env, Msg(End, text))
    case Replied(text) => WriteLine(s, x.env, Msg(Reply, text))
    case Notified(text) => NotifyWrite(s, x.env, Msg(Notice, text))
    case PaneWrote(p) => WriteOutput(s, x.env, p)
    case TurnedOn(p) => SetPaneOn(s, x.env, p)
    case TurnedOff(p) => SetPaneOff(s, x.env, p)
    case Continued(p) => ContinuePane(s, x.env, p)
    case Paused(p) => PausePane(s, x.env, p)
    case Replaced(p, data, parsed) => ResetPane(s, x.env, p)
    case Ignored(on) => ResetOffsets(s).(ignoring := on)
    case Exited => Exit(s)
    case Detached => Detach(s)
    case Suspended => Suspend(s)
    case Woken => Wake(s)
    case Drained(n) => s.(length := if n < s.length then s.length - n else 0)
    case Writable => WriteCallback(s, x.env)
  }

  lemma EnvGrowsInv(s: State, e: Env, f: Env)
    requires Inv(s, e) && Grows(e, f)
    ensures Inv(s, f)
  {
    hide Firm, Quiet, Guards;
    EnvGrows(s, e, f);
  }

  lemma DrainedKeeps(s: State, e: Env, length: nat)
    requires Inv(s, e)
    ensures Inv(s.(length := length), e)
  {
    hide Firm, Guards;
    FirmLength(s, e, length);
    GuardsFrame(s, s.(length := length));
  }

  lemma NotifiedKeeps(s: State, e: Env, msg: Msg)
    requires Inv(s, e) && msg.kind == Notice
    ensures Inv(NotifyWrite(s, e, msg), e)
  {
    hide Firm, Quiet, Guards, NotifyWrite, Milder;
    NotifyKeeps(s, e, msg);
  }

  // The event is output for a pane of an ignored client, one that was told to exit or is suspended, whose
  // queued output has not been discarded.
  predicate Breaks(s: State, x: Event) {
    x.op.PaneWrote? && Undiscarded(s, x.env, x.op.p)
  }

  // Nothing else that can happen breaks the invariant.
  lemma StepKeeps(s: State, e: Env, x: Event)
    requires Inv(s, e) && Possible(e, x)
    ensures x.op.PaneWrote? || x.op.TurnedOn? || x.op.TurnedOff? || x.op.Continued? || x.op.Paused? || x.op.Replaced? ==>
      x.op.p in x.env.data && x.op.p in x.env.parsed
    ensures Inv(Step(s, x), x.env) <==> !Breaks(s, x)
  {
    hide Inv, WriteGuard, WriteLine, NotifyWrite, WriteOutput, SetPaneOn, SetPaneOff, ContinuePane, PausePane, ResetPane, ResetOffsets, Discard, Exit, Detach, Suspend, Wake, WriteCallback, Grows, Undiscarded;
    var f := x.env;
    if x.op.Replaced? {
      ResetPaneKeeps(s, e, x.op.p, x.op.data, x.op.parsed);
    } else {
      EnvGrowsInv(s, e, f);
      match x.op
      case Opened(text) => WriteGuardKeeps(s, f, Msg(Begin, text));
      case Closed(text) => WriteGuardKeeps(s, f, Msg(End, text));
      case Replied(text) => WriteReplyKeeps(s, f, Msg(Reply, text));
      case Notified(text) => NotifiedKeeps(s, f, Msg(Notice, text));
      case PaneWrote(p) => WriteOutputKeeps(s, f, p);
      case TurnedOn(p) => SetPaneOnKeeps(s, f, p);
      case TurnedOff(p) => SetPaneOffKeeps(s, f, p);
      case Continued(p) => ContinuePaneKeeps(s, f, p);
      case Paused(p) => PausePaneKeeps(s, f, p);
      case Ignored(on) => ResetOffsetsKeeps(s, f, on);
      case Exited => ExitKeeps(s, f);
      case Detached => DetachKeeps(s, f);
      case Suspended => SuspendKeeps(s, f);
      case Woken => SuspendKeeps(s, f);
      case Drained(n) => DrainedKeeps(s, f, if n < s.length then s.length - n else 0);
      case Writable => WriteCallbackKeeps(s, f);
    }
  }

  // ----- Runs -----

  // control_start
  function Start(): State {
    State(map[], [], map[], [], [], 0, 0, 0, [], false, false, false, 0, false, 0, [], map[], [], [], {}, map[], map[], SETTLED)
  }

  // A new client is sent a pane's output, is told to exit without discarding it, and the pane writes again
  // before the output has been discarded: the client's next write asks for data that is not there.
  lemma ExitUndiscarded(e: Env, p: nat)
    requires EnvOk(e) && p in e.data && p in e.visible && e.parsed[p] < |e.data[p]|
    ensures var s := WriteOutput(Start(), e, p);
      && p in s.panes && s.panes[p].blocks != []
      && var t := WriteOutput(Detach(s), e, p);
         p in t.panes && (!FirstCheck(t, e, p) ==> WritePending(t, e, p, Limit(t)).1.fatal)
  {
    hide Firm, Quiet, Guards, WritePending, CheckAge;
    StartInv(e);
    WriteOutputKeeps(Start(), e, p);
    var s := WriteOutput(Start(), e, p);
    StartOutput(e, p);
    DetachKeeps(s, e);
    LimitPositive(WriteOutput(Detach(s), e, p));
    IgnoredFatal(Detach(s), e, p, Limit(WriteOutput(Detach(s), e, p)));
  }

  // So does one that is suspended with the output queued. Nothing discards it later: being woken before that
  // write does not help.
  lemma SuspendUndiscarded(e: Env, p: nat)
    requires EnvOk(e) && p in e.data && p in e.visible && e.parsed[p] < |e.data[p]|
    ensures var s := WriteOutput(Start(), e, p);
      && p in s.panes && s.panes[p].blocks != []
      && var t := WriteOutput(Suspend(s), e, p);
         && p in t.panes && p in Wake(t).panes
         && (!FirstCheck(t, e, p) ==> WritePending(t, e, p, Limit(t)).1.fatal)
         && (!FirstCheck(Wake(t), e, p) ==> WritePending(Wake(t), e, p, Limit(Wake(t))).1.fatal)
  {
    hide Firm, Quiet, Guards, WritePending, CheckAge;
    StartInv(e);
    WriteOutputKeeps(Start(), e, p);
    var s := WriteOutput(Start(), e, p);
    StartOutput(e, p);
    SuspendKeeps(s, e);
    SuspendKeeps(Suspend(s), e);
    var t := WriteOutput(Suspend(s), e, p);
    LimitPositive(t);
    LimitPositive(Wake(t));
    IgnoredFatal(Suspend(s), e, p, Limit(t));
    assert Wake(t) == Ignore(Wake(Suspend(s)), e, p);
    IgnoredFatal(Wake(Suspend(s)), e, p, Limit(Wake(t)));
  }

  lemma StartOutput(e: Env, p: nat)
    requires EnvOk(e) && p in e.data && p in e.visible && e.parsed[p] < |e.data[p]|
    ensures var s := WriteOutput(Start(), e, p); p in s.panes && s.panes[p].blocks != [] && !s.exit
  {
    var s1 := AddPane(Start(), e, p);
    assert s1.panes[p].blocks == [] && !s1.panes[p].off && !s1.panes[p].paused && s1.panes[p].queued == e.parsed[p];
    assert CheckAge(s1, e, p) == (false, s1);
  }

  ghost predicate PossibleRun(e: Env, run: seq<Event>)
    decreases run
  {
    run == [] || (Possible(e, run[0]) && PossibleRun(run[0].env, run[1..]))
  }

  // No event of the run breaks the invariant: between an exit that leaves output and its discarding, and
  // while the client is suspended, no pane with blocks queued has more output.
  ghost predicate Heeded(s: State, e: Env, run: seq<Event>)
    requires PossibleRun(e, run)
    decreases run
  {
    run == [] || (!Breaks(s, run[0]) && Heeded(Step(s, run[0]), run[0].env, run[1..]))
  }

  function LastEnv(e: Env, run: seq<Event>): Env {
    if run == [] then e else run[|run| - 1].env
  }

  ghost function Final(s: State, e: Env, run: seq<Event>): State
    requires PossibleRun(e, run)
    decreases run
  {
    if run == [] then s else Final(Step(s, run[0]), run[0].env, run[1..])
  }

  lemma {:induction false} RunKeeps(s: State, e: Env, run: seq<Event>)
    requires Inv(s, e) && PossibleRun(e, run) && Heeded(s, e, run)
    ensures Inv(Final(s, e, run), LastEnv(e, run))
    decreases run
  {
    hide Inv, Possible, Step, Breaks;
    if run != [] {
      StepKeeps(s, e, run[0]);
      RunKeeps(Step(s, run[0]), run[0].env, run[1..]);
      assert LastEnv(e, run) == LastEnv(run[0].env, run[1..]);
    }
  }

  // ----- Runs in which ignored output is always discarded -----

  // What writing and discarding leave alone: the flags that may leave output queued, the panes there are,
  // whether each is off, that it is paused, and whose each block is.
  ghost predicate Kept(s: State, r: State) {
    && r.raised == s.raised && r.owner == s.owner && r.panes.Keys == s.panes.Keys
    && (forall p :: p in s.panes ==> r.panes[p].off == s.panes[p].off && (s.panes[p].paused ==> r.panes[p].paused))
  }

  lemma KeptTwice(s: State, r: State, t: State)
    requires Kept(s, r) && Kept(r, t)
    ensures Kept(s, t)
  {
  }

  lemma KeptSame(s: State, r: State)
    requires r.raised == s.raised && r.owner == s.owner && r.panes == s.panes
    ensures Kept(s, r)
  {
  }

  lemma {:induction false} PopAllHeld(s: State, p: nat)
    requires p in s.panes
    ensures Kept(s, PopAll(s, p))
    decreases |s.panes[p].blocks|
  {
    hide Kept, PopPane;
    if s.panes[p].blocks != [] {
      PopPaneHeld(s, p);
      PopPanePanes(s, p);
      PopAllHeld(PopPane(s, p), p);
      KeptTwice(s, PopPane(s, p), PopAll(s, p));
    } else {
      KeptSame(s, s);
    }
  }

  lemma DiscardPaneHeld(s: State, p: nat)
    requires p in s.panes
    ensures Kept(s, DiscardPane(s, p))
  {
    hide PopAll;
    PopAllHeld(s.(exact := s.exact - {p}), p);
  }

  lemma {:induction false} DiscardPanesHeld(s: State, ids: seq<nat>)
    ensures Kept(s, DiscardPanes(s, ids))
    decreases ids
  {
    hide DiscardPane;
    if ids != [] {
      if ids[0] in s.panes {
        DiscardPaneHeld(s, ids[0]);
        DiscardPanesHeld(DiscardPane(s, ids[0]), ids[1..]);
      } else {
        DiscardPanesHeld(s, ids[1..]);
      }
    }
  }

  lemma WriteLineHeld(s: State, e: Env, msg: Msg)
    ensures Kept(s, WriteLine(s, e, msg))
  {
    hide WriteLine, DiscardPanes, LineOut, LineQueued;
    WriteLineCases(s, e, msg);
    DiscardPanesHeld(s.(exit := true), s.tree);
    LineHeld(s, e.now, msg);
  }

  lemma LineHeld(s: State, t: nat, msg: Msg)
    ensures Kept(s, LineOut(s, msg)) && Kept(s, LineQueued(s, t, msg))
  {
  }

  lemma NotifyHeld(s: State, e: Env, msg: Msg)
    ensures Kept(s, NotifyWrite(s, e, msg))
  {
    hide WriteLine, Kept;
    var s1 := s.(notices := s.notices + [msg]);
    WriteLineHeld(s1, e, msg);
    KeptSame(s, s1);
    KeptTwice(s, s1, WriteLine(s1, e, msg));
    KeptSame(s, s1.(deferred := s.deferred + [msg]));
  }

  lemma {:induction false} FlushDeferredHeld(s: State, e: Env)
    ensures Kept(s, FlushDeferred(s, e))
    decreases |s.deferred|
  {
    hide WriteLine;
    if s.deferred != [] {
      var s1 := WriteLine(s.(deferred := s.deferred[1..]), e, s.deferred[0]);
      WriteLineHeld(s.(deferred := s.deferred[1..]), e, s.deferred[0]);
      if |s1.deferred| < |s.deferred| {
        FlushDeferredHeld(s1, e);
      }
    }
  }

  lemma WriteGuardHeld(s: State, e: Env, msg: Msg)
    ensures Kept(s, WriteGuard(s, e, msg))
  {
    hide WriteLine, FlushDeferred;
    var s1 := if msg.kind == Begin then s.(depth := s.depth + 1) else s;
    WriteLineHeld(s1, e, msg);
    var s2 := WriteLine(s1, e, msg);
    if s2.depth > 0 {
      FlushDeferredHeld(s2.(depth := s2.depth - 1), e);
    }
  }

  lemma CheckAgeHeld(s: State, e: Env, p: nat)
    requires p in s.panes
    ensures Kept(s, CheckAge(s, e, p).1)
  {
    hide DiscardPane, DiscardPanes, NotifyWrite;
    var t := s.(panes := s.panes[p := s.panes[p].(paused := true)]);
    DiscardPaneHeld(t, p);
    NotifyHeld(DiscardPane(t, p), e, PauseMsg(p));
    DiscardPanesHeld(s.(exit := true), s.tree);
  }

  lemma WriteOutputHeld(s: State, e: Env, p: nat)
    requires Inv(s, e) && p in e.data
    ensures p in e.parsed && WriteOutput(s, e, p).raised == s.raised
  {
    hide Inv, CheckAge, AddPane, PushOutput, Ignore;
    AddPaneInv(s, e, p);
    var s1 := AddPane(s, e, p);
    CheckAgeHeld(s1, e, p);
    CheckAgeKeeps(s1, e, p);
    QueuingHeld(s, e, p);
    QueuingHeld(s1, e, p);
    var s2 := CheckAge(s1, e, p).1;
    if p in s2.panes {
      QueuingHeld(s2, e, p);
    }
  }

  lemma QueuingHeld(s: State, e: Env, p: nat)
    requires p in e.data
    ensures p in s.panes ==> Ignore(s, e, p).raised == s.raised
    ensures p in s.panes && s.panes[p].queued <= |e.data[p]| ==> PushOutput(s, e, p).raised == s.raised
  {
  }

  lemma PaneOnHeld(s: State, e: Env, p: nat)
    requires p in e.parsed
    ensures SetPaneOn(s, e, p).raised == s.raised
  {
  }

  lemma AddPaneHeld(s: State, e: Env, p: nat)
    requires p in e.parsed
    ensures p in AddPane(s, e, p).panes && AddPane(s, e, p).raised == s.raised
  {
  }

  lemma PaneOffHeld(s: State, e: Env, p: nat)
    requires p in e.parsed
    ensures SetPaneOff(s, e, p).raised == s.raised
  {
    hide DiscardPane, AddPane;
    AddPaneHeld(s, e, p);
    DiscardPaneHeld(AddPane(s, e, p), p);
  }

  lemma ContinueHeld(s: State, e: Env, p: nat)
    requires p in e.parsed
    ensures ContinuePane(s, e, p).raised == s.raised
  {
    hide NotifyWrite;
    if p in s.panes {
      var t := Sync(s.(panes := s.panes[p := s.panes[p].(paused := false)]), p, e.parsed[p]);
      NotifyHeld(t, e, ContinueMsg(p));
    }
  }

  lemma PauseHeld(s: State, e: Env, p: nat)
    requires p in e.parsed
    ensures PausePane(s, e, p).raised == s.raised
  {
    hide DiscardPane, AddPane, NotifyWrite;
    AddPaneHeld(s, e, p);
    var s1 := AddPane(s, e, p);
    var t := s1.(panes := s1.panes[p := s1.panes[p].(paused := true)]);
    DiscardPaneHeld(t, p);
    NotifyHeld(DiscardPane(t, p), e, PauseMsg(p));
  }

  lemma ResetHeld(s: State, e: Env, p: nat)
    requires p in e.parsed
    ensures ResetPane(s, e, p).raised == s.raised
  {
    hide DiscardPane;
    if p in s.panes {
      DiscardPaneHeld(s, p);
    }
  }

  lemma DiscardHeld(s: State)
    ensures Exit(s).raised == s.raised.(held := false) && ResetOffsets(s).raised == s.raised
  {
    hide DiscardPanes;
    DiscardPanesHeld(s, s.tree);
    DiscardPanesHeld(s.(exit := true), s.tree);
  }

  lemma CallbackHeld(s: State, e: Env)
    ensures Kept(s, WriteCallback(s, e))
  {
    hide FlushAll, Rounds;
    FlushAllHeld(s);
    RoundsHeld(FlushAll(s), e);
  }

  lemma {:induction false} FlushAllHeld(s: State)
    ensures Kept(s, FlushAll(s))
    decreases |s.blocks|
  {
    hide Without;
    if HeadIsText(s) {
      FlushAllHeld(PopLine(s));
    }
  }

  lemma PendingStepHeld(r: Run, e: Env, p: nat, limit: nat)
    requires p in e.data && p in r.s.panes && r.s.panes[p].blocks != [] && r.used < limit
    ensures Kept(r.s, PendingStep(r, e, p, limit).s)
  {
    hide CheckAge, Take, FlushAll, Sizes, Escape, Header, Kept, Push;
    CheckAgeHeld(r.s, Tick(e, r.s), p);
    var (stop, s) := CheckAge(r.s, Tick(e, r.s), p);
    KeptSame(r.s, r.s);
    if !stop && p in s.panes && s.panes[p].blocks != [] {
      var cp, b := s.panes[p], s.panes[p].blocks[0];
      if b in s.blocks && s.blocks[b].Output? {
        var cb := s.blocks[b];
        var size := if cb.size > limit - r.used then limit - r.used else cb.size;
        if |e.data[p]| < cp.offset + size {
          KeptFatal(s);
          KeptTwice(r.s, s, s.(fatal := true));
        } else {
          TakeHeld(s, p, size);
          var s1 := Take(s, p, size);
          KeptTwice(r.s, s, s1);
          var age := if cb.t < e.now then e.now - cb.t else 0;
          var message := r.message + [Data(p, b, cp.offset, size)];
          var bytes := (if r.message == [] then |Header(e, p, age)| else r.bytes)
                       + |Escape(e.data[p][cp.offset..cp.offset + size])|;
          PushHeld(s1, message, bytes);
          KeptTwice(r.s, s1, FlushAll(Push(s1, message, bytes)));
        }
      }
    }
  }

  lemma KeptFatal(s: State)
    ensures Kept(s, s.(fatal := true))
  {
  }

  lemma PushHeld(s: State, message: seq<Item>, bytes: nat)
    ensures Kept(s, FlushAll(Push(s, message, bytes)))
  {
    hide FlushAll;
    FlushAllHeld(Push(s, message, bytes));
  }

  lemma TakeHeld(s: State, p: nat, size: nat)
    requires p in s.panes && s.panes[p].blocks != []
    ensures Kept(s, Take(s, p, size))
  {
    hide PopPane, Take, Kept, Advanced;
    var b := s.panes[p].blocks[0];
    if b in s.blocks && s.blocks[b].Output? && s.blocks[b].size > size {
      TakePartHeld(s, p, size);
    } else {
      var t := Advanced(s, p, size);
      TakeAllFrame(s, p, size);
      AdvancedHeld(s, p, size);
      PopPaneHeld(t, p);
      KeptTwice(s, t, PopPane(t, p));
    }
  }

  lemma AdvancedHeld(s: State, p: nat, size: nat)
    requires p in s.panes
    ensures Kept(s, Advanced(s, p, size))
  {
  }

  lemma TakePartHeld(s: State, p: nat, size: nat)
    requires p in s.panes && s.panes[p].blocks != []
    requires var b := s.panes[p].blocks[0]; b in s.blocks && s.blocks[b].Output? && s.blocks[b].size > size
    ensures Kept(s, Take(s, p, size))
  {
    hide PopPane;
    var cp := s.panes[p];
    var t := Take(s, p, size);
    assert t == s.(panes := s.panes[p := cp.(offset := cp.offset + size)], blocks := t.blocks);
  }

  lemma PopPaneHeld(s: State, p: nat)
    requires p in s.panes && s.panes[p].blocks != []
    ensures Kept(s, PopPane(s, p))
  {
    hide FreeBlock;
    var cp := s.panes[p];
    FreeBlockHeld(s.(panes := s.panes[p := cp.(blocks := cp.blocks[1..])]), cp.blocks[0]);
  }

  lemma FreeBlockHeld(s: State, b: nat)
    ensures var r := FreeBlock(s, b);
      r.raised == s.raised && r.owner == s.owner && r.panes == s.panes
  {
    hide Without;
  }

  lemma {:induction false} PendingLoopHeld(r: Run, e: Env, p: nat, limit: nat)
    requires p in e.data
    ensures Kept(r.s, PendingLoop(r, e, p, limit).s)
    decreases limit - r.used
  {
    hide PendingStep;
    if !(r.stopped || r.used >= limit || p !in r.s.panes || r.s.panes[p].blocks == []) {
      PendingStepHeld(r, e, p, limit);
      var r1 := PendingStep(r, e, p, limit);
      if r1.used > r.used {
        PendingLoopHeld(r1, e, p, limit);
      }
    }
  }

  lemma WritePendingHeld(s: State, e: Env, p: nat, limit: nat)
    requires p in e.data
    ensures Kept(s, WritePending(s, e, p, limit).1)
  {
    hide PendingLoop, FlushAll, DiscardPane;
    if p in s.panes {
      DiscardPaneHeld(s, p);
      FlushAllHeld(DiscardPane(s, p));
      PendingLoopHeld(Run(s, 0, [], 0, false), Enter(e, s), p, limit);
    }
  }

  lemma {:induction false} RoundHeld(s: State, e: Env, limit: nat, list: seq<nat>)
    ensures Kept(s, Round(s, e, limit, list))
    decreases list
  {
    hide WritePending, RemovePending, Kept;
    if !(list == [] || s.length >= CONTROL_BUFFER_HIGH || s.fatal || list[0] !in e.data) {
      var p := list[0];
      var (more, s1) := WritePending(s, e, p, limit);
      WritePendingHeld(s, e, p, limit);
      if more || p !in s1.panes {
        RoundHeld(s1, e, limit, list[1..]);
        KeptTwice(s, s1, Round(s1, e, limit, list[1..]));
      } else {
        var s2 := RemovePending(s1, p);
        UnpendHeld(s1, p);
        RoundHeld(s2, e, limit, list[1..]);
        KeptTwice(s, s1, s2);
        KeptTwice(s, s2, Round(s2, e, limit, list[1..]));
      }
    } else {
      KeptSame(s, s);
    }
  }

  lemma UnpendHeld(s: State, p: nat)
    requires p in s.panes
    ensures Kept(s, RemovePending(s, p))
  {
    hide Without;
  }

  lemma {:induction false} RoundsHeld(s: State, e: Env)
    ensures Kept(s, Rounds(s, e))
    decreases Work(s)
  {
    hide Round, Work, Limit;
    if !(s.length >= CONTROL_BUFFER_HIGH || s.pendingCount == 0 || s.fatal) {
      RoundHeld(s, e, Limit(s), s.pending);
      if Work(Round(s, e, Limit(s), s.pending)) < Work(s) {
        RoundsHeld(Round(s, e, Limit(s), s.pending), e);
      }
    }
  }

  // Telling the client to exit and leaving its output, or suspending it.
  predicate Leaves(x: Event) {
    x.op.Detached? || x.op.Suspended?
  }

  lemma StepHeld(s: State, e: Env, x: Event)
    requires Inv(s, e) && Possible(e, x) && !Leaves(x) && s.raised == SETTLED
    ensures x.op.PaneWrote? || x.op.TurnedOn? || x.op.TurnedOff? || x.op.Continued? || x.op.Paused? || x.op.Replaced? ==>
      x.op.p in x.env.data && x.op.p in x.env.parsed
    ensures Step(s, x).raised == SETTLED && !Breaks(s, x)
  {
    hide Inv, WriteOutput, Step, Grows, Undiscarded;
    StepKeeps(s, e, x);
    if x.op.PaneWrote? {
      EnvGrowsInv(s, e, x.env);
      NotUndiscarded(s, x.env, x.op.p);
      WriteOutputHeld(s, x.env, x.op.p);
      StepWrote(s, x);
    } else if x.op.TurnedOn? || x.op.TurnedOff? || x.op.Continued? || x.op.Paused? || x.op.Replaced? {
      StepPaneHeld(s, x);
    } else {
      StepRestHeld(s, x);
    }
  }

  lemma StepWrote(s: State, x: Event)
    requires x.op.PaneWrote? && x.op.p in x.env.data && x.op.p in x.env.parsed
    ensures Step(s, x) == WriteOutput(s, x.env, x.op.p)
  {
    hide WriteOutput;
  }

  lemma StepPaneHeld(s: State, x: Event)
    requires x.op.TurnedOn? || x.op.TurnedOff? || x.op.Continued? || x.op.Paused? || x.op.Replaced?
    requires x.op.p in x.env.data && x.op.p in x.env.parsed
    ensures Step(s, x).raised == s.raised
  {
    hide SetPaneOn, SetPaneOff, ContinuePane, PausePane, ResetPane;
    PaneOnHeld(s, x.env, x.op.p);
    PaneOffHeld(s, x.env, x.op.p);
    ContinueHeld(s, x.env, x.op.p);
    PauseHeld(s, x.env, x.op.p);
    ResetHeld(s, x.env, x.op.p);
  }

  lemma StepRestHeld(s: State, x: Event)
    requires x.op.Opened? || x.op.Closed? || x.op.Replied? || x.op.Notified? || x.op.Ignored? || x.op.Exited?
      || x.op.Woken? || x.op.Drained? || x.op.Writable?
    ensures s.raised == SETTLED ==> Step(s, x).raised == SETTLED
  {
    hide WriteGuard, WriteLine, NotifyWrite, ResetOffsets, Exit, WriteCallback;
    match x.op
    case Opened(text) => WriteGuardHeld(s, x.env, Msg(Begin, text));
    case Closed(text) => WriteGuardHeld(s, x.env, Msg(End, text));
    case Replied(text) => WriteLineHeld(s, x.env, Msg(Reply, text));
    case Notified(text) => NotifyHeld(s, x.env, Msg(Notice, text));
    case Woken =>
    case Drained(n) =>
    case Writable => CallbackHeld(s, x.env);
    case _ => DiscardHeld(s);
  }

  lemma NotUndiscarded(s: State, e: Env, p: nat)
    requires Inv(s, e) && s.raised == SETTLED
    ensures !Undiscarded(s, e, p)
  {
    hide Firm, Guards;
  }

  // In a run where every exit discards output, and the client is never suspended, nothing breaks the
  // invariant.
  lemma {:induction false} DiscardingHeeded(s: State, e: Env, run: seq<Event>)
    requires Inv(s, e) && s.raised == SETTLED && PossibleRun(e, run)
    requires forall i :: 0 <= i < |run| ==> !Leaves(run[i])
    ensures Heeded(s, e, run) && Final(s, e, run).raised == SETTLED
    decreases run
  {
    hide Inv, Possible, Step, Breaks;
    if run != [] {
      StepHeld(s, e, run[0]);
      StepKeeps(s, e, run[0]);
      DiscardingHeeded(Step(s, run[0]), run[0].env, run[1..]);
    }
  }

  lemma StartHeld()
    ensures Start().raised == SETTLED
  {
  }

  lemma StartInv(e: Env)
    requires EnvOk(e)
    ensures Inv(Start(), e)
  {
  }

  // Whatever a new control client goes through, with any interleaving of replies, guards,
  // notifications, pane output and writes:
  //  - the check for enough data never fails;
  //  - the lines written are a prefix of the lines accepted, nothing made before a line is written after
  //    it, and nothing made before it is still queued;
  //  - each pane's queue is the part of the client queue that belongs to it;
  //  - no notification is inside a guard, and those accepted are the first of those generated: all of
  //    them, with the ones deferred, unless the client was killed for not reading;
  //  - what has been written of a pane and what its blocks still hold never pass what was queued, nor
  //    that what there is; they are equal unless output was discarded, and then what was written since
  //    the pane's offsets were set runs from there without gap or repeat;
  //  - a pane with output queued is pending, and the count of reply bytes is exact;
  //  - nothing is queued for a pane that is off or paused, or for a client that has no-output set, or is to
  //    exit and was not told to leave its output for later.
  // Only one kind of event can break this (StepKeeps, ExitUndiscarded, SuspendUndiscarded), and none in a run
  // where every exit discards output and the client is not suspended; nothing is then queued for a client
  // that is to exit.
  lemma RunResults(e: Env, run: seq<Event>)
    requires EnvOk(e) && PossibleRun(e, run)
    requires (exists i :: 0 <= i < |run| && Leaves(run[i])) ==> Heeded(Start(), e, run)
    ensures var s, f := Final(Start(), e, run), LastEnv(e, run);
      && !s.fatal
      && Lines(s.out) <= s.log && InOrder(s.out)
      && (forall i, b :: 0 <= i < |s.out| && s.out[i].Line? && b in s.all ==> s.out[i].id < b)
      && NoticesOutside(s.log) && Notices(s.log) <= s.notices
      && (!s.dead ==> Notices(s.log) + s.deferred == s.notices)
      && (forall p :: p in s.panes ==>
            && p in f.data && s.panes[p].blocks == PaneBlocks(s.all, s.owner, p)
            && s.panes[p].offset + Sizes(s.panes[p].blocks, s.blocks) <= s.panes[p].queued <= |f.data[p]|
            && (s.panes[p].blocks != [] ==>
                  p in s.pending && !s.panes[p].off && !s.panes[p].paused && (s.exit ==> s.raised.held) && !s.ignoring)
            && (p in s.exact ==>
                  && s.panes[p].offset + Sizes(s.panes[p].blocks, s.blocks) == s.panes[p].queued
                  && p in s.mark && p in s.base && s.mark[p] <= |s.out|
                  && Follow(s.out[s.mark[p]..], p, s.base[p]) == s.panes[p].offset))
      && s.pendingCount == |s.pending| && s.replyBytes == ReplySum(s.all, s.blocks)
      && ((forall i :: 0 <= i < |run| ==> !Leaves(run[i])) ==> s.raised == SETTLED)
  {
    hide Step, Possible, Start, PaneBlocks, BlockOk, Sizes, Follow, ReplySum, Lines, InOrder, Notices, NoticesOutside, Depth, Texts;
    StartInv(e);
    if forall i :: 0 <= i < |run| ==> !Leaves(run[i]) {
      StartHeld();
      DiscardingHeeded(Start(), e, run);
    }
    RunKeeps(Start(), e, run);
    var s, f := Final(Start(), e, run), LastEnv(e, run);
    forall p | p in s.panes
      ensures PaneOk(s.panes[p], s.blocks, p in s.exact, |f.data[p]|)
    {
    }
  }
}

// Control mode output: the state of a control client and what each operation does to it.

module Control {
  import opened GridCell

  // ----- State -----

  // A line of text: a guard, part of a command's reply, or a notification.
  datatype Kind = Begin | End | Reply | Notice
  datatype Msg = Msg(kind: Kind, text: string)

  // struct control_block: a %output block (size bytes of pane data) or a line.
  datatype Block = Output(size: nat, t: nat) | Text(msg: Msg, t: nat)

  // struct control_pane: offset is how much has been written, queued how much is pointed to by blocks.
  datatype Pane = Pane(offset: nat, queued: nat, off: bool, paused: bool, pending: bool, blocks: seq<nat>)

  // What has gone to the client: a line, or size bytes of a block's pane data starting at from.
  datatype Item = Line(id: nat, msg: Msg) | Data(pane: nat, block: nat, from: nat, size: nat)

  datatype Entry = Entry(id: nat, msg: Msg)

  // Blocks are named by the order in which they were made. The fields after `fatal` are history,
  // kept to state what the protocol promises.
  datatype State = State(
    blocks: map<nat, Block>,    // every block there is
    all: seq<nat>,              // the client queue
    panes: map<nat, Pane>,
    tree: seq<nat>,             // the panes in order
    pending: seq<nat>,
    pendingCount: nat,
    replyBytes: nat,            // queued_reply_bytes
    depth: nat,                 // guard_depth
    deferred: seq<Msg>,
    exit: bool,                 // CLIENT_EXIT
    dead: bool,                 // CLIENT_CONTROL_DISCARD
    ignoring: bool,             // CLIENT_CONTROL_NOOUTPUT
    length: nat,                // bytes in the output buffer
    fatal: bool,                // fatalx was reached
    next: nat,                  // the next block's name
    out: seq<Item>,             // everything written to the output buffer
    owner: map<nat, nat>,       // the pane of each %output block
    log: seq<Entry>,            // every line accepted
    notices: seq<Msg>,          // every notification generated
    exact: set<nat>,            // panes with nothing discarded since their offsets were last set
    mark: map<nat, nat>,        // how much had been written when they were
    base: map<nat, nat>,        // and what they were set to
    raised: Raised)

  // Why pane output may be ignored while there are blocks queued: CLIENT_SUSPENDED, which discards nothing;
  // and, as history, an exit that left its output queued, if nothing has discarded it since.
  datatype Raised = Raised(suspended: bool, held: bool)

  const SETTLED := Raised(false, false)

  // What an operation finds outside: pane data so far, how much of it each pane has parsed itself,
  // the panes that still exist in the client's session, and the time. The write callback reads the timer
  // for every pane and at every block it comes to: later says by how much time has moved on by each reading.
  datatype Env = Env(data: map<nat, seq<byte>>, parsed: map<nat, nat>, visible: set<nat>, now: nat,
                     later: nat -> nat, pauseAfter: bool, pauseAge: nat)

  const CONTROL_BUFFER_HIGH := 8192
  const CONTROL_WRITE_MINIMUM := 32
  const CONTROL_MAXIMUM_AGE := 300000
  const CONTROL_MAXIMUM_REPLY_BUFFER := 64 * 1024 * 1024

  function Decimal(n: nat): string {
    if n < 10 then [DIGITS[n]] else Decimal(n / 10) + [DIGITS[n % 10]]
  }

  const DIGITS := "0123456789"

  function PauseMsg(p: nat): Msg {
    Msg(Notice, "%pause %" + Decimal(p))
  }

  function ContinueMsg(p: nat): Msg {
    Msg(Notice, "%continue %" + Decimal(p))
  }

  // ----- Queues of block names -----

  function Without(q: seq<nat>, b: nat): seq<nat> {
    if q == [] then []
    else Without(q[..|q| - 1], b) + if q[|q| - 1] == b then [] else [q[|q| - 1]]
  }

  // The blocks of q that belong to pane p.
  function PaneBlocks(q: seq<nat>, owner: map<nat, nat>, p: nat): seq<nat> {
    if q == [] then []
    else
      var b := q[|q| - 1];
      PaneBlocks(q[..|q| - 1], owner, p) + if b in owner && owner[b] == p then [b] else []
  }

  function Sizes(q: seq<nat>, blocks: map<nat, Block>): nat {
    if q == [] then 0
    else
      var b := q[|q| - 1];
      Sizes(q[..|q| - 1], blocks) + if b in blocks && blocks[b].Output? then blocks[b].size else 0
  }

  function ReplySum(q: seq<nat>, blocks: map<nat, Block>): nat {
    if q == [] then 0
    else
      var b := q[|q| - 1];
      ReplySum(q[..|q| - 1], blocks) + if b in blocks && blocks[b].Text? then |blocks[b].msg.text| + 1 else 0
  }

  // The lines of q, in order.
  function Texts(q: seq<nat>, blocks: map<nat, Block>): seq<Entry> {
    if q == [] then []
    else
      var b := q[|q| - 1];
      Texts(q[..|q| - 1], blocks) + if b in blocks && blocks[b].Text? then [Entry(b, blocks[b].msg)] else []
  }

  // ----- Operations on blocks and panes -----

  // control_free_block
  function FreeBlock(s: State, b: nat): State {
    if b !in s.blocks then s else
    s.(blocks := s.blocks - {b}, all := Without(s.all, b),
       replyBytes :=
         if s.blocks[b].Text? then
           var size := |s.blocks[b].msg.text| + 1;
           if s.replyBytes > size then s.replyBytes - size else 0
         else s.replyBytes)
  }

  // The first block of a pane taken off both queues.
  function PopPane(s: State, p: nat): State
    requires p in s.panes && s.panes[p].blocks != []
  {
    var cp := s.panes[p];
    FreeBlock(s.(panes := s.panes[p := cp.(blocks := cp.blocks[1..])]), cp.blocks[0])
  }

  function PopAll(s: State, p: nat): (r: State)
    requires p in s.panes
    decreases |s.panes[p].blocks|
  {
    if s.panes[p].blocks == [] then s else PopAll(PopPane(s, p), p)
  }

  // control_discard_pane
  function DiscardPane(s: State, p: nat): State
    requires p in s.panes
  {
    PopAll(s.(exact := s.exact - {p}), p)
  }

  // control_discard, over the panes of ids
  function DiscardPanes(s: State, ids: seq<nat>): State
    decreases ids
  {
    if ids == [] then s
    else if ids[0] in s.panes then DiscardPanes(DiscardPane(s, ids[0]), ids[1..])
    else DiscardPanes(s, ids[1..])
  }

  function Discard(s: State): State {
    DiscardPanes(s, s.tree)
  }

  // Both offsets of a pane set to the same place.
  function Sync(s: State, p: nat, at: nat): State
    requires p in s.panes
  {
    s.(panes := s.panes[p := s.panes[p].(offset := at, queued := at)],
       exact := s.exact + {p}, mark := s.mark[p := |s.out|], base := s.base[p := at])
  }

  function InsertSorted(q: seq<nat>, p: nat): seq<nat> {
    if q == [] || q[|q| - 1] < p then q + [p] else InsertSorted(q[..|q| - 1], p) + [q[|q| - 1]]
  }

  // control_add_pane
  function AddPane(s: State, e: Env, p: nat): State
    requires p in e.parsed
  {
    if p in s.panes then s
    else Sync(s.(panes := s.panes[p := Pane(0, 0, false, false, false, [])], tree := InsertSorted(s.tree, p)), p, e.parsed[p])
  }

  // ----- Lines -----

  // control_check_reply_buffer
  function CheckReplyBuffer(s: State, added: nat): (bool, State) {
    if s.dead then (true, s)
    else if s.length + s.replyBytes + added < CONTROL_MAXIMUM_REPLY_BUFFER then (false, s)
    else (true, (if s.exit then s else Discard(s.(exit := true))).(dead := true))
  }

  // control_write_line
  function WriteLine(s: State, e: Env, msg: Msg): State {
    var (drop, s1) := CheckReplyBuffer(s, |msg.text| + 1);
    if drop then s1
    else if s.all == [] then
      s.(out := s.out + [Line(s.next, msg)], length := s.length + |msg.text| + 1,
         next := s.next + 1, log := s.log + [Entry(s.next, msg)])
    else
      s.(blocks := s.blocks[s.next := Text(msg, e.now)], all := s.all + [s.next],
         replyBytes := s.replyBytes + |msg.text| + 1,
         next := s.next + 1, log := s.log + [Entry(s.next, msg)])
  }

  // control_flush_deferred, for the messages still deferred
  function FlushDeferred(s: State, e: Env): State
    decreases |s.deferred|
  {
    if s.deferred == [] then s
    else
      var s1 := WriteLine(s.(deferred := s.deferred[1..]), e, s.deferred[0]);
      if |s1.deferred| < |s.deferred| then FlushDeferred(s1, e) else s1
  }

  // control_write_guard
  function WriteGuard(s: State, e: Env, msg: Msg): State {
    var s1 := if msg.kind == Begin then s.(depth := s.depth + 1) else s;
    var s2 := WriteLine(s1, e, msg);
    if msg.kind != Begin && s2.depth > 0 then
      var s3 := s2.(depth := s2.depth - 1);
      if s3.depth == 0 then FlushDeferred(s3, e) else s3
    else s2
  }

  // control_notify_write
  function NotifyWrite(s: State, e: Env, msg: Msg): State {
    var s1 := s.(notices := s.notices + [msg]);
    if s.depth == 0 then WriteLine(s1, e, msg) else s1.(deferred := s.deferred + [msg])
  }

  // ----- Pane output -----

  // control_check_age
  function CheckAge(s: State, e: Env, p: nat): (bool, State)
    requires p in s.panes
  {
    var cp := s.panes[p];
    if cp.blocks == [] || cp.blocks[0] !in s.blocks || s.blocks[cp.blocks[0]].t >= e.now then (false, s)
    else
      var age := e.now - s.blocks[cp.blocks[0]].t;
      if e.pauseAfter then
        if age < e.pauseAge then (false, s)
        else (true, NotifyWrite(DiscardPane(s.(panes := s.panes[p := cp.(paused := true)]), p), e, PauseMsg(p)))
      else if age < CONTROL_MAXIMUM_AGE then (false, s)
      else (true, Discard(s.(exit := true)))
  }

  // The "ignore" exit of control_write_output
  function Ignore(s: State, e: Env, p: nat): State
    requires p in s.panes && p in e.data
  {
    Sync(s, p, |e.data[p]|)
  }

  // A new %output block for everything not yet queued, and the pane made pending.
  function PushOutput(s: State, e: Env, p: nat): State
    requires p in s.panes && p in e.data && s.panes[p].queued <= |e.data[p]|
  {
    var cp := s.panes[p];
    var size := |e.data[p]| - cp.queued;
    s.(blocks := s.blocks[s.next := Output(size, e.now)], all := s.all + [s.next],
       panes := s.panes[p := cp.(queued := |e.data[p]|, blocks := cp.blocks + [s.next], pending := true)],
       pending := if cp.pending then s.pending else s.pending + [p],
       pendingCount := if cp.pending then s.pendingCount else s.pendingCount + 1,
       owner := s.owner[s.next := p], next := s.next + 1)
  }

  // CONTROL_IGNORE_FLAGS and CLIENT_EXIT. A client that is dead has no control state.
  predicate OutputIgnored(s: State) {
    s.ignoring || s.raised.suspended || s.exit
  }

  // control_write_output
  function WriteOutput(s: State, e: Env, p: nat): State
    requires p in e.data && p in e.parsed
  {
    if p !in e.visible then s
    else if OutputIgnored(s) then (if p in s.panes then Ignore(s, e, p) else s)
    else
      var s1 := AddPane(s, e, p);
      if s1.panes[p].off || s1.panes[p].paused then Ignore(s1, e, p)
      else
        var (stop, s2) := CheckAge(s1, e, p);
        if stop || s2.panes[p].queued >= |e.data[p]| then s2 else PushOutput(s2, e, p)
  }

  // control_set_pane_on, control_set_pane_off, control_continue_pane, control_pause_pane and
  // control_reset_pane
  function SetPaneOn(s: State, e: Env, p: nat): State
    requires p in e.parsed
  {
    if p in s.panes && s.panes[p].off then
      Sync(s.(panes := s.panes[p := s.panes[p].(off := false)]), p, e.parsed[p])
    else s
  }

  function SetPaneOff(s: State, e: Env, p: nat): State
    requires p in e.parsed
  {
    var s1 := AddPane(s, e, p);
    var s2 := DiscardPane(s1, p);
    if p !in s2.panes then s2
    else
      var s3 := Sync(s2, p, e.parsed[p]);
      s3.(panes := s3.panes[p := s3.panes[p].(off := true)])
  }

  function ContinuePane(s: State, e: Env, p: nat): State
    requires p in e.parsed
  {
    if p in s.panes && s.panes[p].paused then
      NotifyWrite(Sync(s.(panes := s.panes[p := s.panes[p].(paused := false)]), p, e.parsed[p]), e, ContinueMsg(p))
    else s
  }

  function PausePane(s: State, e: Env, p: nat): State
    requires p in e.parsed
  {
    var s1 := AddPane(s, e, p);
    if s1.panes[p].paused then s1
    else NotifyWrite(DiscardPane(s1.(panes := s1.panes[p := s1.panes[p].(paused := true)]), p), e, PauseMsg(p))
  }

  function ResetPane(s: State, e: Env, p: nat): State
    requires p in e.parsed
  {
    if p !in s.panes then s
    else
      var s1 := DiscardPane(s, p);
      if p in s1.panes then Sync(s1, p, e.parsed[p]) else s1
  }

  // control_reset_offsets
  function ResetOffsets(s: State): State {
    Discard(s).(panes := map[], tree := [], pending := [], pendingCount := 0, exact := {})
  }

  // ----- Writing to the client -----

  function HeadIsText(s: State): bool {
    s.all != [] && s.all[0] in s.blocks && s.blocks[s.all[0]].Text?
  }

  // One line at the head of the queue written and freed.
  function PopLine(s: State): State
    requires HeadIsText(s)
  {
    var b := s.all[0];
    var msg := s.blocks[b].msg;
    FreeBlock(s.(out := s.out + [Line(b, msg)], length := s.length + |msg.text| + 1), b)
  }

  // control_flush_all_blocks
  function FlushAll(s: State): State
    decreases |s.blocks|
  {
    if HeadIsText(s) then FlushAll(PopLine(s)) else s
  }

  // Bytes below space and backslashes are written as a backslash and three octal digits.
  function EscapeByte(b: byte): seq<byte> {
    if b < 32 || b == 92 then [92, 48 + b / 64, 48 + b / 8 % 8, 48 + b % 8] else [b]
  }

  function Escape(data: seq<byte>): seq<byte> {
    if data == [] then [] else Escape(data[..|data| - 1]) + EscapeByte(data[|data| - 1])
  }

  function Header(e: Env, p: nat, age: nat): string {
    if e.pauseAfter then "%extended-output %" + Decimal(p) + " " + Decimal(age) + " : "
    else "%output %" + Decimal(p) + " "
  }

  // control_write_data
  function Push(s: State, message: seq<Item>, bytes: nat): State {
    if message == [] then s else s.(out := s.out + message, length := s.length + bytes + 1)
  }

  // control_write_pending part way: how much it has used, and the message it has not yet written.
  datatype Run = Run(s: State, used: nat, message: seq<Item>, bytes: nat, stopped: bool)

  // size bytes of the first block taken: the offset moves on, and the block goes if it is finished.
  function Take(s: State, p: nat, size: nat): State
    requires p in s.panes && s.panes[p].blocks != []
  {
    var cp, b := s.panes[p], s.panes[p].blocks[0];
    var s1 := s.(panes := s.panes[p := cp.(offset := cp.offset + size)]);
    if b !in s.blocks || !s.blocks[b].Output? || s.blocks[b].size <= size then PopPane(s1, p)
    else s1.(blocks := s1.blocks[b := Output(s.blocks[b].size - size, s.blocks[b].t)])
  }

  // The timer read on entry to control_write_pending, and then at each turn of its loop. Every turn leaves
  // less to write, so every reading can be a time of its own.
  function Enter(e: Env, s: State): Env {
    e.(now := e.now + e.later(2 * Sizes(s.all, s.blocks) + 1))
  }

  function Tick(e: Env, s: State): Env {
    e.(now := e.now + e.later(2 * Sizes(s.all, s.blocks)))
  }

  // One turn of the loop of control_write_pending, on a pane with a block. Its age is checked against the
  // time of the turn and written as of the time of entry.
  function PendingStep(r: Run, e: Env, p: nat, limit: nat): Run
    requires p in e.data && p in r.s.panes && r.s.panes[p].blocks != [] && r.used < limit
  {
    var (stop, s) := CheckAge(r.s, Tick(e, r.s), p);
    if stop || p !in s.panes || s.panes[p].blocks == [] then Run(s, r.used, [], 0, true)
    else
      var cp, b := s.panes[p], s.panes[p].blocks[0];
      if b !in s.blocks || !s.blocks[b].Output? then r.(stopped := true)
      else
        var cb := s.blocks[b];
        var age := if cb.t < e.now then e.now - cb.t else 0;
        var size := if cb.size > limit - r.used then limit - r.used else cb.size;
        if |e.data[p]| < cp.offset + size then Run(s.(fatal := true), r.used, [], 0, true)
        else
          var message := r.message + [Data(p, b, cp.offset, size)];
          var bytes := (if r.message == [] then |Header(e, p, age)| else r.bytes)
                       + |Escape(e.data[p][cp.offset..cp.offset + size])|;
          var s1 := Take(s, p, size);
          if cb.size == size && HeadIsText(s1) then Run(FlushAll(Push(s1, message, bytes)), r.used + size, [], 0, false)
          else Run(s1, r.used + size, message, bytes, false)
  }

  // The loop. A turn that used nothing would not end it; there is none, as blocks are not empty.
  function PendingLoop(r: Run, e: Env, p: nat, limit: nat): Run
    requires p in e.data
    decreases limit - r.used
  {
    if r.stopped || r.used >= limit || p !in r.s.panes || r.s.panes[p].blocks == [] then r
    else
      var r1 := PendingStep(r, e, p, limit);
      if r1.used <= r.used then r1 else PendingLoop(r1, e, p, limit)
  }

  // control_write_pending: whether the pane has more, and the state
  function WritePending(s: State, e: Env, p: nat, limit: nat): (bool, State)
    requires p in e.data
  {
    if p !in s.panes then (false, s)
    else if p !in e.visible then (false, FlushAll(DiscardPane(s, p)))
    else
      var r := PendingLoop(Run(s, 0, [], 0, false), Enter(e, s), p, limit);
      var s1 := Push(r.s, r.message, r.bytes);
      (p in s1.panes && s1.panes[p].blocks != [], s1)
  }

  function RemovePending(s: State, p: nat): State
    requires p in s.panes
  {
    s.(panes := s.panes[p := s.panes[p].(pending := false)], pending := Without(s.pending, p),
       pendingCount := if s.pendingCount > 0 then s.pendingCount - 1 else 0)
  }

  // One pass over the pending panes in list.
  function Round(s: State, e: Env, limit: nat, list: seq<nat>): State
    decreases list
  {
    if list == [] || s.length >= CONTROL_BUFFER_HIGH || s.fatal || list[0] !in e.data then s
    else
      var p := list[0];
      var (more, s1) := WritePending(s, e, p, limit);
      Round(if more || p !in s1.panes then s1 else RemovePending(s1, p), e, limit, list[1..])
  }

  function Limit(s: State): nat {
    if s.pendingCount == 0 || s.length >= CONTROL_BUFFER_HIGH then CONTROL_WRITE_MINIMUM
    else
      var limit := (CONTROL_BUFFER_HIGH - s.length) / s.pendingCount / 3;
      if limit < CONTROL_WRITE_MINIMUM then CONTROL_WRITE_MINIMUM else limit
  }

  // What is left to do: bytes still to be written and panes still pending.
  function Work(s: State): nat {
    Sizes(s.all, s.blocks) + |s.pending|
  }

  function Rounds(s: State, e: Env): State
    decreases Work(s)
  {
    if s.length >= CONTROL_BUFFER_HIGH || s.pendingCount == 0 || s.fatal then s
    else
      var s1 := Round(s, e, Limit(s), s.pending);
      if Work(s1) < Work(s) then Rounds(s1, e) else s1
  }

  // control_write_callback
  function WriteCallback(s: State, e: Env): State {
    Rounds(FlushAll(s), e)
  }
}

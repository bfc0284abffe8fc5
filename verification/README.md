# A verified model of tmux's grid, control mode, command queues and matchers

This project models the parts of tmux where state is changed in place by many functions that must agree
with one another, and proves what they promise over every input and every run. Each part has a
specification written as functions on values, methods or classes that do what the C code does to fields
and arrays, and lemmas about the specification.

- **The grid** (`GridCell`, `LineStore`, `Grids`, `Reflow`, `LogicalLines`, `GridView`, `History`). A line
  stores its cells compactly with a side table of extended cells; any run of operations on it reads back
  as a plain array of cells. Reflow is modelled as it works, draining one grid into another with joins,
  splits and half-used lines; the text never changes whatever the widths and no line comes out too wide.
  With cells of one column the logical lines survive exactly on a stated condition (`Tied`), and under a
  stronger one (`Flowing`) the result is the logical lines cut into pieces and a cursor stays on its cell.
  Inserting and deleting lines in a region are splices even where the line counts wrap modulo 2^32.
  Scrolling keeps a suffix of everything that ever scrolled off.
- **Control mode output** (`Control`, `ControlQueues`, `ControlInvariants`, `ControlLines`,
  `ControlPanes`, `ControlWrites`, `ControlCallback`, `ControlRuns`, `ControlEffects`, `ControlEscape`,
  `ControlClient`). One invariant is kept by every operation but one (see below), so that over any
  interleaving of replies, guards, notifications, pane output, pauses, exits and writes the bytes written are
  the bytes queued, lines keep their order and their place among blocks, no notification falls inside a
  guard, the check for missing data cannot fail and the write callback ends. A pane that is off or paused has
  nothing queued until it is turned on or continued, whatever else happens.
- **Command queues** (`CmdQueue`, `CmdScheduler`, `CmdRuns`, `CmdEffects`, `CmdQueues`, `Subsequences`). A
  queue edited by the items it runs fires them in depth-first program order, across waits and whatever the
  other queues do and append to it; a command that fails takes exactly its group with it; over all queues
  nothing fires more often than it appears; and every client is referenced exactly by the queued items that
  name it.
- **Wait channels** (`Strings`, `WaitFor`, `WaitEffects`, `WaitChannels`), **hyperlink sets** (`Hyperlinks`)
  and **event sinks** (`Events`): what each operation changes and that nothing else does, and invariants over
  every run of them.
- **Fuzzy matching and layout** (`Fuzzy`, `Layout`). The two-pass match succeeds exactly on
  subsequences and finds the one tightest match; the columns it marks are those the layout draws.

Commands and callbacks are arbitrary: what an item or an event callback does when it runs is given with
it, as a finite tree, so a theorem over all trees is one over every terminating run. Time, drained output
and new pane data are parameters of each step.

## What the proofs found

Where a property is not true of the code as it stands, the model keeps the code's behaviour, and a lemma
says exactly when the property holds.

- Two things have pane output ignored while leaving blocks queued: an exit flag raised without discarding
  (`control.c:693`, `control.c:714`), and `suspend-client`, whose flag is one of those ignored
  (`server-client.c:490-502`, `tmux.h:2346-2349`) and which nothing follows with a discard. If a pane with
  blocks then has more output, `control_write_output` moves both offsets to the end of the data
  (`control.c:665-668`). That is the only kind of event, of those modelled, that breaks the invariant
  (`ControlRuns.StepKeeps`, `ControlPanes.IgnoreKeepsExactly`): the pane's next turn, unless its age stops
  it, reaches the "not enough data" `fatalx` (`ControlCallback.IgnoredFatal`). `ControlRuns.ExitUndiscarded`
  and `ControlRuns.SuspendUndiscarded` are such runs of a new client.
- `grid_reflow_join` clears WRAPPED for a line it then does not take. Line breaks are kept by a join
  exactly if it does not stop that way (`Reflow.Join`). On a grid of one-column cells the logical lines
  survive every width if and only if no two wrapped lines are followed by an empty line without markers
  that is not wrapped (`LogicalLines.ReflowGrid`); `LogicalLines.BreakMadeUp` reflows such a grid.
- `grid_reflow` takes a line without the extended flag to be as wide as it has cells, but a padding cell
  has no width, and a split can leave a tab's padding on such a line. `grid_reflow_split` then adds lines it
  does not write to, exactly as many as `Reflow.Unused` says (`Reflow.SplitCount`); the line in
  `Reflow.SplitLeavesLine` is given four lines and takes three. The text is kept, but a line joined next
  lands after the unused ones.
- `grid_clear` agrees with blanking part of an array except in three ways: background 9 leaves cells past the
  stored ones reading as background 8, background 9 over the full width empties the line, and any clear over
  the full width drops cells past the edge of the grid (`LineStore.ClearAgreesExactly`,
  `LineStore.ClearDisagrees`).
- `grid_set_cells` given a padding cell shows padding where the entry was compact and the character where it
  was extended; given a tab it stores the character's code as the tab's width
  (`LineStore.GridLine.SetCells`). `LineStore.StoredAsCharacter` says when the character is shown.
- `grid_reflow` can leave more history than its limit. Scrolling then frees a tenth of the limit, but at
  least one line, for each line it adds: with a limit under twenty the history stays as far over its limit as
  it was (`History.OverLimit`, `History.BackWithinLimit`).
- `grid_view_insert_lines` clears nothing after its move: it is the splice exactly when the lines not
  moved over were blank already (`GridView.InsertLines`); `GridView.InsertLeavesLine` is a grid where they
  are not.
- Inserting lines in a region ends the wrapping of two of the lines moved down, and deleting that of the last
  one moved up (`GridView.WrapsAfterInsert`, `GridView.WrapsAfterDelete`).
- Setting or clearing a client's no-output flag forgets which panes were off or paused
  (`ControlEffects.ResetOffsetsEffect`), the one way besides turning it on or continuing it that a pane's
  output starts again (`ControlEffects.OffRun`).
- A second signal with no one waiting removes an unlocked woken channel, so the next to wait blocks
  (`WaitFor.SignalTwice`).
- The fuzzy matcher's marks are the columns that show the character exactly when a wide character is not
  cut at an edge of its part (`Layout.MarkedIsShown`); `Layout.CutCharacters` has one cut at either edge.
- `format_draw_put_list` may draw a marker over the focus of the list. `Layout.PutList` says exactly when it
  does; with markers of one column it is the second column of the list in a space of two
  (`Layout.OneColumnMarkers`).

## Model

| member | source | states |
|---|---|---|
| `LineStore.CompactRoundTrip` | grid.c:60-76 | a cell that needs no extended entry reads back from its compact entry as it was but for CLEARED |
| `LineStore.ExtendedRoundTrip` | grid.c:116-146 | a cell stored in the side table reads back as it was but for CLEARED |
| `LineStore.ClearAgreesExactly` | grid.c:682-757 | clearing agrees with blanking that part of the plain array if and only if: over the full width, the background is not 9 and nothing is stored past the grid; over part of it, the background is not 9 or nothing past the stored cells is cleared |
| `LineStore.ClearDisagrees` | grid.c:682-757 | a line for each of the three ways in which it does not |
| `LineStore.CompactThin` | grid.c:592-608 | a compact entry shows a cell no more than one column wide |
| `LineStore.ExtendedNeeded` | grid.c:78-99 | no compact entry shows a cell that is said to need an extended one, but for tabs |
| `LineStore.GrownLeast` | grid.c:526-533 | a line grows to the least of a quarter, a half and all of the width that is more than it needs, or to what it needs |
| `Grids.BlankReads` | grid.c:547-554 | a line starts with no cell in use, and its cells show a space on the background given or on the default |
| `Grids.SetCellReads` | grid.c:620-640 | the cell set reads back, no other changes, and the line is in use up to it |
| `LineStore.GridLine.ExtendedCell` | grid.c:102-146 | an entry keeps its slot or gets a fresh one; no other slot and no other entry changes; the cell reads back |
| `LineStore.GridLine.ClearCell` | grid.c:224-251 | the cell reads as a blank; a slot now owned by a moved copy is never written |
| `LineStore.GridLine.ExpandLine` | grid.c:519-545 | stored cells grow to a quarter, half or all of the width, or to what is wanted; old reads are unchanged and new ones blank |
| `LineStore.GridLine.Empty` | grid.c:547-554 | a freed line starts again empty, or filled across the grid with a background that is not a default |
| `LineStore.GridLine.Clear` | grid.c:682-723 | which cells read as blank after a clear: the full width frees the line, cells past the grid included, and part of it stops at the stored cells with a default background |
| `LineStore.GridLine.SetCell` | grid.c:620-640 | only the cell set reads differently; the used width covers it; offsets stay distinct and inside the side table |
| `LineStore.GridLine.SetCells` | grid.c:653-680 | a run of bytes is written with one cell's attributes and nothing else changes, tab and padding cells included |
| `LineStore.StoredAsCharacter` | grid.c:669-678 | the character is shown if and only if the cell is not a tab, nor padding in an entry that stays compact |
| `LineStore.GridLine.ClearRange` | grid.c:702-722 | the loop that clears part of a line, the stored limit of a default background included |
| `LineStore.GridLine.MoveCells` | grid.c:801-831 | overlapping copy and blanked originals, although the two share slots half way |
| `LineStore.GridLine.CompactLine` | grid.c:149-188 | no read changes and the side table has one slot for each extended cell |
| `LineStore.GridLine.DropConsumed` | grid.c:1482-1486 | the first cells of a partly joined line are dropped and the rest moved down |
| `LineStore.MovedDistinct` | grid.c:801-831 | once the originals have no slot or a fresh one, no two entries of the line share a slot |
| `LineStore.RepackedReads` | grid.c:149-188 | numbering extended entries in order gives each its own slot and changes no read |
| `LineStore.GridLine.StoreAt` | grid.c:620-640 | storing in place reads back, and changes no other read whether or not the entry was extended |
| `LineStore.GridLine.WipeMoved` | grid.c:801-831 | wiping the originals of a move writes to no slot that the copies use |
| `LineStore.Repack` | grid.c:149-188 | the loop that renumbers extended entries |
| `LineStore.Replay` | grid.c:620-831 | after any run of set, set-run, clear, move and compact the line shows what the plain array shows |
| `Reflow.Move` | grid.c:1324-1333 | a line goes to the end of the target and leaves a dead line behind |
| `Reflow.CopyRun` | grid.c:1446-1463 | the longest run of cells that fits is appended to the last target line |
| `Reflow.MarksBothWays` | grid.c:1336-1381 | which markers move to the line above and to which column, and that the others stay on their cells |
| `Reflow.JoinLine` | grid.c:1427-1466 | whether a source line is taken, how much of it, that only its own text moves, and that the markers on what it gives stay on their cells |
| `Reflow.JoinLoop` | grid.c:1409-1474 | the loop takes lines in order until the target is full or a break is reached, keeping text and width, and always takes one from flowing lines |
| `Reflow.JoinFinish` | grid.c:1475-1501 | a line taken in part keeps the rest, used lines die, the break of the last line taken whole is paid, and the scroll position goes up by the lines used, but not above the line joined to |
| `Reflow.Join` | grid.c:1384-1502 | joining keeps the text, uses up source lines in order and overfills nothing; breaks are kept if and only if it does not stop short of a line that was not wrapped, and otherwise there is one more |
| `Reflow.MadeUpIsStoppedShort` | grid.c:1418-1448 | the loop ends a target line with no break owed exactly when it stops at an empty line or a first character that does not fit |
| `Reflow.ShortIsLoose` | grid.c:1409-1474 | with one-column cells it stops short only after two wrapped lines, at an empty line without markers |
| `Reflow.JoinRunWide` | grid.c:1409-1474 | with more columns than cells it takes a logical line whole but for such an end, and stops short there |
| `Reflow.Measure` | grid.c:1608-1627 | the width of a line, exact if and only if the line has the extended flag or no padding, and where it first passes the new width |
| `Reflow.OverflowsThin` | grid.c:1515-1529 | how often lines fill up, in closed form, for cells of one column or none |
| `Reflow.SplitCount` | grid.c:1515-1529 | the number of lines a split adds: those it writes to and exactly how many more |
| `Reflow.UnusedCount` | grid.c:1515-1529 | never fewer than it needs, and no more with one-column cells |
| `Reflow.SplitLeavesLine` | grid.c:1515-1529 | a line of padding and characters that is given a line too many |
| `Reflow.SplitCopy` | grid.c:1544-1563 | all cells are laid out in order, none too wide, over as many lines as fill up |
| `Reflow.SplitLines` | grid.c:1515-1566 | the lines a line is split into hold its cells in order, and every marker is on its cell, once |
| `Reflow.Split` | grid.c:1505-1576 | splitting, and joining what follows to the last line added, loses, repeats and reorders nothing; the scroll position comes down by the lines added |
| `Reflow.AdvanceMove` | grid.c:1629-1654 | moving a line across whole keeps text, fit and breaks |
| `Reflow.AdvanceJoin` | grid.c:1384-1502 | moving it and joining onto it keeps text and fit, and breaks with tied lines |
| `Reflow.AdvanceSplit` | grid.c:1505-1576 | so does splitting it, with one-column cells |
| `Reflow.AdvanceSplitJoin` | grid.c:1569-1575 | so does splitting it and joining onto the last line added |
| `Reflow.Step` | grid.c:1597-1654 | each line that is not dead is dealt with once, target and remaining source together saying what they said |
| `Reflow.CutRest` | grid.c:1479-1486 | a line cut by a join stays what it was to later steps |
| `Reflow.LooseCosts` | grid.c:1409-1479 | no step with more columns than cells gets past two wrapped lines and an empty end without a made-up break |
| `Reflow.ReflowLoop` | grid.c:1596-1655 | for any widths the text of the target is the text of the source, no line is too wide if every cell fits, and with one-column cells breaks survive tied lines and, on enough columns, only those; the scroll position is what each step in turn makes of it |
| `Reflow.ScrollUnmoved` | grid.c:1494-1501 | lines moved across one for one leave the scroll position where it is |
| `LogicalLines.FilledIsChopped` | grid.c:1579-1669 | lines filled to a width are exactly the pieces of their own logical lines |
| `LogicalLines.LogicalIsParagraphs` | grid.c:1579-1669 | logical lines are determined by the text with its breaks |
| `LogicalLines.ReflowedIsChopped` | grid.c:1579-1669 | what reflow leaves is the pieces of the logical lines it was given |
| `LogicalLines.ReflowGrid` | grid.c:1579-1669 | text kept for all widths; with one-column cells logical lines kept at every width if and only if the lines are tied, and then, if the last line is not wrapped, they are the same list with blank ones added; with flowing lines the result is each logical line cut to the width and blank lines only to fill the screen; the scroll position is what the steps make of it, but no more than the history |
| `LogicalLines.EndsAreLogical` | grid.c:1579-1669 | there are at least as many logical lines as breaks |
| `LogicalLines.BreakMadeUp` | grid.c:1425-1448 | a grid of three lines and one logical line that has more once it is reflowed |
| `LogicalLines.RewrappedTwice` | grid.c:1579-1669 | rewrapping to one width and then another is rewrapping to the second, but for blank lines at the end |
| `LogicalLines.ReflowTwice` | grid.c:1579-1669 | the same of grid_reflow run twice |
| `LogicalLines.AtNames` | grid.c:1672-1691 | the logical position of a cell names that cell of its logical line |
| `LogicalLines.AtUnique` | grid.c:1672-1724 | no two cells have the same logical position |
| `LogicalLines.WrapPosition` | grid.c:1672-1691 | the logical position of a cell, or past-the-end of its logical line |
| `LogicalLines.UnwrapPosition` | grid.c:1694-1724 | finds the cell of a logical position, or the end of a logical line |
| `LogicalLines.WrapThenUnwrap` | grid.c:1672-1724 | unwrapping undoes wrapping for every cell of every grid, empty wrapped lines included |
| `LogicalLines.LogicalOfRewrapped` | grid.c:1579-1669 | reflow keeps every logical line where it was in the list |
| `LogicalLines.NamedHasPosition` | grid.c:1672-1724 | every cell of every logical line has a position |
| `LogicalLines.CursorKept` | grid.c:1672-1724 | what a cursor names before reflow it names after, and its logical line is still there |
| `LogicalLines.ReflowCursor` | screen.c:641-660 | on tied lines of one-column cells a cursor stays on its cell of its logical line through reflow, or at the end of its logical line |
| `GridView.ClearLines` | grid.c:726-756 | which lines a clear touches when its bounds are computed modulo 2^32 |
| `GridView.MoveLines` | grid.c:759-798 | overlapping moves of lines, what is wiped and which wrapped flags go |
| `GridView.InsertLinesRegion` | grid-view.c:190-212 | inserting lines in a region is a splice for every region and count, wrap-around of the cleared bound included; lines outside are the same, and exactly which of those inside are still wrapped |
| `GridView.DeleteLinesRegion` | grid-view.c:238-260 | deleting lines in a region is a splice for every region and count, with the lines moved up wrapped as they were but for the last |
| `GridView.DeleteLines` | grid-view.c:215-235 | deleting lines to the bottom of the screen is a splice, with the same wrapped lines |
| `GridView.InsertLines` | grid-view.c:168-187 | inserting without a clear is the splice if and only if the lines not moved over were blank |
| `GridView.InsertLeavesLine` | grid-view.c:168-187 | a screen of three rows on which it is not |
| `GridView.InsertLinesSuffices` | grid-view.c:168-187 | it is when no more than half of the remaining rows are inserted |
| `GridView.InsertThenDelete` | grid-view.c:190-260 | deleting what was inserted restores all but the lines that fell off |
| `History.CollectHistory` | grid.c:388-431 | how many lines are left, that they are the latest, and what happens to the scroll position |
| `History.CollectedTo` | grid.c:404-431 | collecting all brings the history to its limit, or one line below if it was there; otherwise a tenth of the limit goes, but at least a line, and nothing below the limit; what is kept is the latest |
| `History.ScrollOnce` | grid.c:404-467 | a scroll adds a line below the limit; from the limit on it first frees a tenth of it, but at least a line; what is kept is the latest, the row scrolled off last |
| `History.BelowLimit` | grid.c:404-467 | a run that does not pass the limit loses no line |
| `History.RowsUpAt` | grid.c:484-516 | each row of the region moves up one, the last is blank and no other row changes |
| `History.ScrollHistory` | grid.c:452-467 | the top row joins the history and a blank row comes in |
| `History.ScrollHistoryRegion` | grid.c:484-516 | the top row of a region joins the history and only the region moves |
| `History.ScrollRegionUp` | grid-view.c:109-144 | with history, each scroll is one step of the specification |
| `History.ScrollRegionUpPlain` | grid-view.c:128-143 | without history the top line of a region is lost |
| `History.RunScrolls` | grid-view.c:109-144 | any run of scrolls is the run of the specification |
| `History.MoveRegion` | grid.c:484-516 | the three moves that take the top row of a region out from under the history |
| `History.HistoryOfRun` | grid.c:388-516 | after any run the history is a suffix of history and scrolled-off lines, within its limit or no longer than it was, with the scroll position inside it, and the counters account for every line |
| `History.OverLimit` | grid.c:404-467 | how long a history over its limit is after any number of scrolls, and exactly when it is back within it |
| `History.BackWithinLimit` | grid.c:404-467 | never with a limit under twenty, and otherwise after as many scrolls as it has lines too many |
| `History.RowsOutsideRun` | grid.c:484-516 | rows outside every region scrolled never change |
| `History.WholeRun` | grid-view.c:65-95 | scrolling the whole screen n times sends its first n rows off in order |
| `History.ClearHistory` | grid-view.c:65-95 | every row in use goes to the history in order, none lost below the limit, and the screen is blank |
| `ControlInvariants.PopPaneFirm` | control.c:169-184 | taking a pane's first block off both queues keeps queues, offsets, sums, order and text |
| `ControlInvariants.DiscardPaneFirm` | control.c:279-289 | discarding a pane's output keeps everything but that its bytes are complete |
| `ControlInvariants.DiscardFirm` | control.c:1039-1048 | discarding all output leaves no pane with blocks |
| `ControlLines.WriteLineKeeps` | control.c:428-483 | a line is written, queued behind what there is or dropped by a client that is killed, and the invariant holds |
| `ControlLines.KillFirm` | control.c:428-451 | killing a client that does not read discards its output and keeps the invariant |
| `ControlLines.FlushDeferredKeeps` | control.c:486-497 | deferred notifications all go, in order, once no guard is open |
| `ControlLines.WriteGuardKeeps` | control.c:529-548 | a guard line keeps the invariant; the one that closes the outermost lets the deferred out after it |
| `ControlLines.WriteReplyKeeps` | control.c:505-520 | reply text keeps the invariant whatever guards are open |
| `ControlLines.NotifyKeeps` | control.c:555-580 | a notification is written outside guards or deferred, and none is lost or reordered |
| `ControlPanes.SyncFirm` | control.c:408-421 | both offsets may be set to one place when nothing is queued, even with the data replaced |
| `ControlPanes.IgnoreKeepsExactly` | control.c:629-668 | jumping to the end of the data keeps the accounting if and only if the pane has no blocks |
| `ControlPanes.CheckAgeKeeps` | control.c:583-615 | a pane that is too old is paused or the client told to exit, and its output is gone |
| `ControlPanes.PushFirm` | control.c:641-661 | a new block covers exactly what is not yet queued and the pane becomes pending |
| `ControlPanes.WriteOutputKeeps` | control.c:618-669 | pane output keeps the invariant if and only if it is not ignored with blocks of the pane queued, and leaves everything the pane has queued or ignored unless the pane is paused or the client exits |
| `ControlPanes.SetPaneOnKeeps` | control.c:349-360 | turning a pane on keeps the invariant; ControlEffects says what it does, as for those below |
| `ControlPanes.SetPaneOffKeeps` | control.c:363-373 | turning a pane off keeps the invariant |
| `ControlPanes.ContinuePaneKeeps` | control.c:376-388 | continuing a pane keeps the invariant |
| `ControlPanes.PausePaneKeeps` | control.c:391-402 | pausing a pane keeps the invariant |
| `ControlPanes.ResetPaneKeeps` | control.c:408-421 | resetting a pane whose buffer has been replaced keeps the invariant |
| `ControlPanes.ResetOffsetsKeeps` | control.c:307-321 | forgetting every pane keeps the invariant |
| `ControlPanes.ExitKeeps` | control.c:610-612 | telling a client to exit and discarding its output keeps the invariant |
| `ControlPanes.DetachKeeps` | control.c:693-714 | so does telling it to exit and leaving its output |
| `ControlPanes.SuspendKeeps` | server-client.c:490-502 | so do suspending and waking it |
| `ControlWrites.ReplyCountExact` | control.c:169-184 | the reply byte count always covers the line freed, so the clamp at zero is never what decides it |
| `ControlWrites.FlushAllKeeps` | control.c:787-803 | exactly the lines ahead of the first block are written, in order |
| `ControlWrites.TakeFirm` | control.c:897-907 | writing a piece of a block moves the offset and shortens or frees the block together |
| `ControlCallback.EnoughData` | control.c:826-828 | the bytes wanted from a pane are always there |
| `ControlCallback.DropMessage` | control.c:881-885 | a message dropped half way loses only output that has been discarded |
| `ControlCallback.PendingStepKeeps` | control.c:880-918 | one turn keeps the invariant whatever the timer reads by then, and stops with nothing queued or uses some of the limit |
| `ControlCallback.WritePendingKeeps` | control.c:860-922 | a pane says it has more exactly when it has, and then has written its whole limit |
| `ControlCallback.RoundKeeps` | control.c:947-955 | a pass over the pending panes always leaves less to do |
| `ControlCallback.WriteCallbackKeeps` | control.c:925-959 | the callback ends with the buffer full or every pane's output written up to what was queued |
| `ControlCallback.IgnoredFatal` | control.c:629-668 | a pane ignored with blocks queued reaches the fatalx in its next turn |
| `ControlRuns.StepKeeps` | control.c:307-959 | everything that can happen to a client keeps the whole invariant, but for output ignored with blocks queued, which breaks it |
| `ControlRuns.ExitUndiscarded` | control.c:629-668 | a new client told to exit with a block queued, whose pane writes again, reaches the fatalx |
| `ControlRuns.SuspendUndiscarded` | control.c:629-668 | so does one that is suspended, even if it is woken first |
| `ControlRuns.DiscardingHeeded` | control.c:307-959 | that event is not in any run in which every exit discards output and the client is not suspended |
| `ControlRuns.RunResults` | control.c:307-959 | over every run without that event: no fatalx, lines a prefix of those accepted and in place among blocks, each pane queue the pane's part of the client queue, no notification inside a guard and none lost short of the kill, pane bytes gap-free and equal to those queued, counters exact, nothing queued where output is off |
| `ControlEffects.WriteLineEffect` | control.c:428-483 | a line goes straight out, or to the end of the queue if there is anything on it; at 64 MiB of replies the client is killed and its output goes, and after that nothing is written |
| `ControlEffects.FlushDeferredEffect` | control.c:486-497 | every deferred line is written, in order |
| `ControlEffects.WriteGuardEffect` | control.c:529-548 | a guard is always written and the depth follows it; the one that closes the outermost has everything deferred behind it and no other has |
| `ControlEffects.NotifyEffect` | control.c:555-580 | a notification is written at once outside guards and deferred inside one |
| `ControlEffects.DecimalValue` | control.c:386-400 | the number of a pane is written in decimal digits without leading zeros |
| `ControlEffects.CheckAgeEffect` | control.c:583-615 | exactly when a pane is too old, by the pause-after age or by five minutes, and then whether it is paused with a notification or the client is told to exit |
| `ControlEffects.WriteOutputEffect` | control.c:618-669 | output of a pane not seen does nothing; of one ignored, off or paused it moves both offsets to the end; of any other it is one new block of all that is not queued, last on both queues |
| `ControlEffects.SetPaneOffEffect` | control.c:363-373 | the pane is off with nothing queued and both offsets where it has parsed to; no other pane and no line changes |
| `ControlEffects.SetPaneOnEffect` | control.c:349-360 | a pane that was off is on with both offsets where it has parsed to; any other is left alone |
| `ControlEffects.PausePaneEffect` | control.c:391-402 | the pane is paused with nothing queued and one pause notification; one already paused is left alone |
| `ControlEffects.ContinuePaneEffect` | control.c:376-388 | a paused pane goes on from where it has parsed to, with one continue notification; any other is left alone |
| `ControlEffects.ResetPaneEffect` | control.c:405-421 | nothing is queued for the pane and both offsets are where the new data has been parsed to |
| `ControlEffects.ResetOffsetsEffect` | control.c:307-321 | every pane goes with its output and every line stays queued |
| `ControlEffects.ExitEffect` | control.c:610-612 | every pane is left with nothing queued and every line stays queued |
| `ControlEffects.FlagEffects` | server-client.c:490-502 | an exit that leaves its output, a suspend and a wake change nothing else, and a client told to exit is not suspended |
| `ControlEffects.StepSilent` | control.c:307-959 | nothing but turning it on, continuing it or forgetting all panes ends the silence of a pane that is off or paused, and no block is made for it meanwhile |
| `ControlEffects.OffRun` | control.c:307-959 | over every run without those, a pane that is off stays off and nothing is ever queued for it |
| `ControlEffects.PausedRun` | control.c:307-959 | the same of a pane that is paused until it is continued |
| `ControlEffects.OffThenOn` | control.c:349-373 | output after a pane is turned off queues nothing; after it is turned on again it is queued from where the pane had parsed to |
| `ControlEffects.PauseThenContinue` | control.c:376-402 | the same of pausing and continuing, unless the client is to exit |
| `ControlEffects.LimitMost` | control.c:936-945 | a turn may write the most that fits three times over for every pending pane, but at least 32 bytes |
| `ControlEffects.TurnEffect` | control.c:880-918 | a turn takes as much of the first block as the limit leaves, from where the pane is; the exact length of the message, its header included; and when the message goes out |
| `ControlEffects.TurnStopped` | control.c:880-885 | a turn that finds its pane too old drops the message in hand and writes nothing of the pane |
| `ControlEffects.GoneEffect` | control.c:870-878 | a pane that is gone has its blocks dropped and none of them written, and the lines behind them are |
| `ControlEffects.RoundTurn` | control.c:947-955 | after its turn a pane is pending exactly if it has blocks left, having then used its whole limit |
| `ControlEffects.RoundInOrder` | control.c:947-955 | panes have their turns one after another in the order they became pending |
| `ControlEffects.CallbackPasses` | control.c:925-959 | with the buffer full only lines are written; until then there are passes over the panes pending, with the limit of each worked out as it starts |
| `ControlEscape.AppendData` | control.c:829-840 | copying runs of plain bytes and escaping the rest is escaping each byte |
| `ControlEscape.EscapeConcat` | control.c:829-840 | where data is cut into pieces makes no difference to the text sent |
| `ControlEscape.EscapeForm` | control.c:829-840 | a byte below space or a backslash is a backslash and its three octal digits, and any other byte is itself |
| `ControlEscape.EscapeOneLine` | control.c:829-840 | escaped data has no control bytes, so a message is one line |
| `ControlEscape.EscapeRoundTrip` | control.c:829-840 | the data can be read back from the text |
| `ControlClient.Client.RemoveBlock` | control.c:169-184 | in place, the specification's step |
| `ControlClient.Client.DiscardOutput` | control.c:279-289 | the discarding loop is the specification's |
| `ControlClient.Client.DiscardAll` | control.c:1039-1048 | so is the loop over the panes |
| `ControlClient.Client.TooMuchBuffered` | control.c:428-451 | whether a line is to be dropped, and the client killed |
| `ControlClient.Client.PutLine` | control.c:454-483 | a line written or queued in place |
| `ControlClient.Client.PutDeferred` | control.c:486-497 | the deferred list drained in place |
| `ControlClient.Client.PutGuard` | control.c:529-548 | guard depth kept in place |
| `ControlClient.Client.Notify` | control.c:555-580 | a notification in place |
| `ControlClient.Client.TooOld` | control.c:583-615 | the age check in place |
| `ControlClient.Client.GetOrAddPane` | control.c:197-216 | a pane added in place with its offsets |
| `ControlClient.Client.QueueOutput` | control.c:641-661 | a block made and put on both queues, the pane made pending |
| `ControlClient.Client.PaneOn` | control.c:349-360 | in place, the specification's step, keeping the invariant |
| `ControlClient.Client.PaneOff` | control.c:363-373 | in place, exactly SetPaneOff, of which ControlEffects.SetPaneOffEffect says all it does, keeping the invariant |
| `ControlClient.Client.PaneContinue` | control.c:376-388 | in place, the specification's step, keeping the invariant |
| `ControlClient.Client.PanePause` | control.c:391-402 | in place, the specification's step, keeping the invariant |
| `ControlClient.Client.PaneReset` | control.c:408-421 | in place, the specification's step |
| `ControlClient.Client.ForgetPanes` | control.c:307-321 | in place, the specification's step |
| `ControlClient.Client.TakePiece` | control.c:897-907 | a block shortened, or freed when it is finished |
| `ControlClient.Client.PaneOutput` | control.c:618-669 | pane output in place, keeping the invariant exactly when the specification does |
| `ControlClient.Client.PutQueuedLines` | control.c:787-803 | the flushing loop in place |
| `ControlClient.Client.WriteTurn` | control.c:880-918 | one turn of the pending loop in place, with data always there |
| `ControlClient.Client.WritePane` | control.c:860-922 | the pending loop in place, which ends |
| `ControlClient.Client.WriteRound` | control.c:947-955 | the pass over a list that shrinks under it |
| `ControlClient.Client.Written` | control.c:925-959 | the write callback in place, keeping the invariant and ending |
| `CmdQueue.RunIter` | cmd-queue.c:331-356 | taking items one at a time off a list they insert into is running each with all it inserts before the next, failed groups removed on the way |
| `CmdQueue.IterIsDrain` | cmd-queue.c:714-793 | so a queue fires in depth-first program order, then what was appended to it |
| `CmdQueue.DroppedMembers` | cmd-queue.c:442-456 | removing a group leaves every item of another as often as it was; CmdEffects.IterFirst says when a group is removed |
| `CmdQueue.RunConcat` | cmd-queue.c:331-356 | running one list before another is running it and then what it leaves of the other |
| `CmdQueue.RunFirst` | cmd-queue.c:739-786 | when an item has fired, the tree goes on with what it inserted and the rest of the groups that did not fail |
| `CmdQueue.FiresOnce` | cmd-queue.c:714-793 | no item fires more often than it appears |
| `CmdQueue.FiredNamed` | cmd-queue.c:307-356 | an item that fires leaves, with all it inserts and appends to any queue, no more than it held |
| `CmdScheduler.DoActsItems` | cmd-queue.c:307-356 | insertions end up between an item and the rest, appends at the end |
| `CmdScheduler.RemoveGroupItems` | cmd-queue.c:442-456 | removing a group leaves everything else of that queue in order |
| `CmdScheduler.InsertOwed` | cmd-queue.c:331-356 | inserting takes one reference for each item on the client it is given |
| `CmdScheduler.AppendOwed` | cmd-queue.c:307-328 | appending takes one for each item on the client of the queue |
| `CmdScheduler.RemoveOwed` | cmd-queue.c:426-439 | removing an item gives its reference back |
| `CmdScheduler.FireOwed` | cmd-queue.c:569-666 | lending a command a client while it runs leaves references exact |
| `CmdScheduler.DoActsOthers` | cmd-queue.c:307-328 | other queues only get longer at the end |
| `CmdScheduler.FailItems` | cmd-queue.c:649-756 | a failed command's hook goes behind it and then its group goes from all behind it; CmdEffects.FireEntries says which commands these are |
| `CmdScheduler.FireItems` | cmd-queue.c:739-786 | firing the head leaves exactly what program order says is next |
| `CmdEffects.FireEntries` | cmd-queue.c:569-770 | entry by entry: what is fired stays as the head with what it returned; behind it are its insertions with the client it ran with, what was there, and its appends; a command that returns an error has its hook put first and exactly its group taken out of all of that; nothing else is ever taken out and no other hook put in |
| `CmdEffects.FireElsewhere` | cmd-queue.c:307-328 | every other queue gets at its end exactly what is appended to it |
| `CmdEffects.RemoveGroupWithout` | cmd-queue.c:442-456 | the entries of the group go from there on, and the others stay in order |
| `CmdEffects.NetEach` | cmd-queue.c:331-356 | each insertion goes where it says behind the item, with what was there in order around it |
| `CmdEffects.AppendedEach` | cmd-queue.c:307-328 | appends go in order to the queue named, or to the global queue if there is none |
| `CmdEffects.DoActsEntries` | cmd-queue.c:307-356 | what an item inserts has the client it runs with, and what it appends has that of the queue |
| `CmdEffects.IterFirst` | cmd-queue.c:739-786 | program order is the first item and then what firing it leaves: its hook and not its group if it is a command that returns an error, and everything otherwise |
| `CmdEffects.FailedStops` | cmd-queue.c:755-766 | once a command of a group returns an error, what is only in items of the group never fires from that queue |
| `CmdEffects.GroupOfTwo` | cmd-queue.c:755-766 | of two commands in a group the second fires if and only if the first does not return an error |
| `CmdEffects.AllFire` | cmd-queue.c:714-793 | if nothing fails, everything on the only queue or ever inserted or appended fires exactly as often as it appears |
| `CmdEffects.ContinueGoesOn` | cmd-queue.c:419-423 | continuing the head changes only that it waits; the queue then goes on without it and the next item fires |
| `CmdRuns.FireArrives` | cmd-queue.c:307-328 | what firing an item adds to another queue is exactly what it appends there |
| `CmdRuns.NextKeeps` | cmd-queue.c:714-793 | cmdq_next runs the queue in program order up to an item that waits and only appends to other queues |
| `CmdRuns.WaitingBlocks` | cmd-queue.c:726-752 | nothing fires while the head waits |
| `CmdRuns.StepKeeps` | cmd-queue.c:307-793 | running, continuing, appending and inserting after a waiting item keep references exact and what follows the head unfired |
| `CmdRuns.RunKeeps` | cmd-queue.c:307-793 | over every run each client's references are the queued items that name it |
| `CmdRuns.StepPlan` | cmd-queue.c:307-793 | what has fired from a queue and is to come changes only by what arrives on it: at its end, or after its head from cmdq_insert_after |
| `CmdRuns.RunOrder` | cmd-queue.c:714-793 | however often a queue stops and is continued, whatever else runs, it fires the program order of what was on it as long as nothing arrives |
| `CmdRuns.NextTree` | cmd-queue.c:714-793 | cmdq_next runs what was on the queue in the order of its tree before what is behind it |
| `CmdRuns.RunTree` | cmd-queue.c:307-793 | over every run in which nothing is put after its head from outside, what has fired from a queue is a start of the tree order of what was on it or holds all of that first, whatever is appended to it and whatever other queues do |
| `CmdRuns.NextCount` | cmd-queue.c:714-793 | cmdq_next never raises how often a name has fired or is queued over all queues |
| `CmdRuns.RunOnce` | cmd-queue.c:307-793 | over every run of all queues, nothing fires more often than it was queued at the start or brought from outside: an item that waited does not fire again |
| `CmdQueues.Queues.Push` | cmd-queue.c:307-328 | appending a chain an item at a time |
| `CmdQueues.Queues.InsertAfter` | cmd-queue.c:331-356 | inserting a chain an item at a time, each after the last |
| `CmdQueues.Queues.RemoveRest` | cmd-queue.c:442-456 | the loop that removes a group |
| `CmdQueues.Queues.FireHead` | cmd-queue.c:569-666 | firing in place, exactly Fire, whose whole effect is CmdEffects.FireEntries; the client is saved and restored |
| `CmdQueues.Queues.ContinueHead` | cmd-queue.c:419-423 | continuing in place |
| `CmdQueues.Queues.Remove` | cmd-queue.c:426-439 | removing in place, with its reference |
| `CmdQueues.Queues.Perform` | cmd-queue.c:307-356 | a run of insertions and appends in place |
| `CmdQueues.Queues.RunHead` | cmd-queue.c:739-784 | one turn of the loop, with less left to do |
| `CmdQueues.Queues.RunQueue` | cmd-queue.c:714-793 | cmdq_next in place, which ends |
| `WaitFor.SignalKeeps` | cmd-wait-for.c:380-405 | a signal keeps the invariants; WaitEffects.SignalEffect says what it does |
| `WaitFor.WaitKeeps` | cmd-wait-for.c:407-434 | a wait returns at once exactly on a woken channel |
| `WaitFor.LockKeeps` | cmd-wait-for.c:436-459 | a lock is granted exactly when free and otherwise queued last |
| `WaitFor.UnlockKeeps` | cmd-wait-for.c:461-482 | an unlock hands over to the first queued or frees the lock |
| `WaitFor.WakeKeeps` | cmd-wait-for.c:348-378 | one item of a client goes on and every other is still accounted for |
| `WaitFor.ClientLostKeeps` | cmd-wait-for.c:484-516 | exactly the items of a lost client go on |
| `WaitFor.FlushKeeps` | cmd-wait-for.c:518-546 | no channel is left and every item ever made to wait has been continued |
| `WaitFor.ChangeOk` | cmd-wait-for.c:135-165 | changing or freeing a channel keeps the tree in order and loses no item; none is freed with anyone queued |
| `WaitEffects.SignalEffect` | cmd-wait-for.c:380-405 | every waiter goes on, in order, and none is left; with none the channel is woken, or goes if it was woken and is not locked; nothing else changes |
| `WaitEffects.WaitEffect` | cmd-wait-for.c:407-434 | an item waits at the end of the list unless the channel is woken, which goes if it is not locked; nothing else changes |
| `WaitEffects.LockEffect` | cmd-wait-for.c:436-459 | the lock is taken, or the item queued last; nothing else changes |
| `WaitEffects.UnlockEffect` | cmd-wait-for.c:461-482 | the first queued goes on with the lock, or it is freed and the channel goes if it is woken; nothing else changes |
| `WaitEffects.WakeEffect` | cmd-wait-for.c:348-378 | the first waiter of the client goes on, or its first locker if none waits; a channel with nothing left goes; nothing else changes |
| `WaitEffects.LostEffect` | cmd-wait-for.c:484-516 | exactly the client's items go on, channel by channel, waiters first; each channel is left without them, and which go |
| `WaitEffects.FlushEffect` | cmd-wait-for.c:518-546 | everyone goes on, channel by channel, waiters first, and no channel is left |
| `WaitFor.RunResults` | cmd-wait-for.c:348-546 | over every run woken means no waiters, queued lockers mean locked and each item is on one list until continued; over grants alone the lock is held by one at a time and goes round in order |
| `WaitFor.SignalThenWait` | cmd-wait-for.c:380-434 | a signal no one waits for is not lost, and its channel goes when it is used |
| `WaitFor.SignalTwice` | cmd-wait-for.c:390-404 | a second such signal takes it back unless the channel is locked |
| `WaitChannels.Channels.Find` | cmd-wait-for.c:94-98 | finding a name in the ordered tree |
| `WaitChannels.Channels.DoSignal` | cmd-wait-for.c:380-405 | in place, exactly Signal, waiters continued one at a time |
| `WaitChannels.Channels.DoWait` | cmd-wait-for.c:407-434 | in place, keeping the invariants |
| `WaitChannels.Channels.DoLock` | cmd-wait-for.c:436-459 | in place, keeping fairness |
| `WaitChannels.Channels.DoUnlock` | cmd-wait-for.c:461-482 | in place, keeping fairness |
| `WaitChannels.Channels.DoWake` | cmd-wait-for.c:348-378 | in place, the first item of the client found by a search of each list |
| `WaitChannels.Channels.LetGo` | cmd-wait-for.c:498-511 | the loop over one list: the items of the client go on one at a time and the others stay |
| `WaitChannels.Channels.DoLost` | cmd-wait-for.c:484-516 | the loops over channels and lists |
| `WaitChannels.Channels.DoFlush` | cmd-wait-for.c:518-546 | the flushing loops, leaving nothing |
| `Fuzzy.TightestUnique` | fuzzy.c:330-391 | there is only one tightest match, so marks and score are settled by the text |
| `Fuzzy.GreedyStep` | fuzzy.c:340-356 | scanning forward never passes the place of any match |
| `Fuzzy.FirstFromStart` | fuzzy.c:340-356 | the forward pass succeeds exactly on subsequences and ends as soon as any match |
| `Fuzzy.CompactStep` | fuzzy.c:358-383 | scanning backward never passes below a match, so nothing goes below zero |
| `Fuzzy.CompactBackwards` | fuzzy.c:358-383 | the backward pass always finds a place and leaves every character as late as any match with that end |
| `Fuzzy.MatchFuzzy` | fuzzy.c:330-391 | a term matches exactly if it is a subsequence, and what is marked and scored is the tightest match |
| `Fuzzy.SpanCovers` | fuzzy.c:320-322 | a match spans at least its length, so the gap is never negative |
| `Fuzzy.ScorePositions` | fuzzy.c:294-324 | the score of a match by its start, its steps and its gaps |
| `Fuzzy.ScoreCounts` | fuzzy.c:294-324 | the score by what it counts: the start, characters that follow on, characters that start a word, and characters skipped, with their points |
| `Fuzzy.ExactCounts` | fuzzy.c:394-415 | the points of an exact match: length, anchors, start, and characters before and after |
| `Fuzzy.CharEqualCases` | fuzzy.c:125-135 | characters match if they are the same or, ignoring case, the two cases of an ASCII letter |
| `Fuzzy.BestOf` | fuzzy.c:443-462 | the first best-scoring place among those allowed |
| `Fuzzy.MatchExact` | fuzzy.c:418-471 | a term matches exactly if it is somewhere its anchors allow; the first best-scoring place is taken and marked |
| `Fuzzy.MatchFits` | fuzzy.c:279-291 | a term with more characters than the text cannot match |
| `Fuzzy.TermGivesOne` | fuzzy.c:512-532 | what a term marks and scores is determined |
| `Fuzzy.MatchTerm` | fuzzy.c:512-532 | an inverse term matches exactly when it is not there |
| `Fuzzy.MatchGroup` | fuzzy.c:535-559 | a group matches exactly when all its terms do; marks and scores add up |
| `Fuzzy.MatchPattern` | fuzzy.c:620-642 | a pattern matches exactly when some group does; the first best-scoring group's marks are kept |
| `Layout.Trim` | format-draw.c:208-215 | the trimming loop keeps the left first, then the right, then the centre |
| `Layout.DrawNone` | format-draw.c:192-248 | in place, exactly NoList, with no underflow; NoListPlaces says where each part is |
| `Layout.NoListPlaces` | format-draw.c:192-248 | left and right are at the ends of the line and show those ends of their sources; the middle of the centre is in the middle of what is between them, and the absolute centre in the middle of the line; the centre gives way before the right and the right before the left |
| `Layout.NoListApart` | format-draw.c:192-248 | left, centre and right are apart, in order, on the line and on their sources |
| `Layout.NoListFills` | format-draw.c:208-215 | nothing is trimmed while there is room and the line is full when something is |
| `Layout.FuzzyLayout` | fuzzy.c:644-680 | the matcher computes the same offset, source start and width as the layout for all four alignments; NoListPlaces says which |
| `Layout.ColumnsAgree` | fuzzy.c:266-276 | every character's column is where the layout draws it |
| `Layout.ColumnsDistinct` | format-draw.c:192-248 | no column shows two source columns |
| `Layout.MarkedIsShown` | fuzzy.c:682-693 | what is marked is what shows if and only if the character is not cut |
| `Layout.CutCharacters` | fuzzy.c:682-693 | a character cut at each edge, with the column shown and not marked, or marked and not shown |
| `Layout.Mask` | fuzzy.c:682-693 | a bit is set exactly for the columns of matched characters |
| `Layout.TrimList` | format-draw.c:297-312 | the five-way trimming loop in closed form |
| `Layout.ListLeftApart` | format-draw.c:276-374 | with a list on the left all five parts are apart, in order and inside |
| `Layout.ListRightApart` | format-draw.c:483-585 | the same with it on the right |
| `Layout.ListLeftPlaces` | format-draw.c:276-374 | left, list and after follow one another from the start, right ends the line, and the middle of the centre is in the middle between |
| `Layout.ListRightPlaces` | format-draw.c:483-585 | right, list and after follow one another up to the end, left starts the line, and the middle of the centre is in the middle between |
| `Layout.KeptGivesWay` | format-draw.c:297-312 | first the centre gives way, then the list, the right, what is after the list, and the left, with the line full when any does |
| `Layout.DrawLeft` | format-draw.c:324-374 | the offsets computed are those |
| `Layout.DrawRight` | format-draw.c:531-585 | the offsets computed are those |
| `Layout.JoinedLeft` | format-draw.c:314-322 | with no room for a list, joining what follows it to the left trims nothing more |
| `Layout.JoinedRight` | format-draw.c:521-529 | nor does joining it to the right |
| `Layout.PutList` | format-draw.c:148-189 | a trimmed list and its markers fill its space exactly, its focus is in that space, in the middle unless an end of the list is nearer, and it is drawn if and only if no marker covers it |
| `Layout.OneColumnMarkers` | format-draw.c:148-189 | with markers of one column the focus is hidden only at the second column in a space of two |
| `Layout.UpdateRanges` | format-draw.c:97-130 | the loop that clips and shifts ranges |
| `Layout.RangesEach` | format-draw.c:97-130 | ranges are taken in order, each by itself, and those of other screens stay |
| `Layout.RangeFollows` | format-draw.c:97-130 | a range covers exactly the columns its columns are drawn at and goes when there are none |
| `Hyperlinks.CmpTotal` | hyperlinks.c:75-116 | both comparators are antisymmetric and equal exactly on the same key |
| `Hyperlinks.CmpTransitive` | hyperlinks.c:75-116 | both are transitive |
| `Hyperlinks.NamedFirst` | hyperlinks.c:75-101 | named links sort first and are found without an inner number |
| `Hyperlinks.FindFinds` | hyperlinks.c:158-169 | a search of an ordered tree finds the entry of a key if there is one |
| `Hyperlinks.PutKeeps` | hyperlinks.c:141-190 | the new link goes last in the list and, when there is one too many, the oldest of all goes: never the new one |
| `Hyperlinks.RemoveKeeps` | hyperlinks.c:123-138 | a link leaves the list and both trees together |
| `Hyperlinks.GetIsListed` | hyperlinks.c:193-210 | getting an inner number gives the set's one listed entry with it |
| `Hyperlinks.GetAfterPut` | hyperlinks.c:141-210 | a link put can be got, with its URI and ID |
| `Hyperlinks.PutAgain` | hyperlinks.c:158-169 | putting a named link again gives the same number and changes nothing |
| `Hyperlinks.AnonymousNew` | hyperlinks.c:141-190 | an anonymous link is always new |
| `Hyperlinks.NumbersMoveOn` | hyperlinks.c:141-190 | a new link takes the next inner and the next external number, and no number is used again |
| `Hyperlinks.ResetKeeps` | hyperlinks.c:235-242 | resetting a set takes exactly its links out of everything |
| `Hyperlinks.FreeKeeps` | hyperlinks.c:245-252 | so does its last release |
| `Hyperlinks.FreedLast` | hyperlinks.c:245-252 | a set is as it was until it has been released as often as it has references, and then goes with exactly its links |
| `Hyperlinks.RunResults` | hyperlinks.c:123-252 | over every run of any number of sets: trees hold exactly the listed entries, there are fewer than the limit, and no two of a set have one ID and URI |
| `Hyperlinks.Table.Lookup` | hyperlinks.c:158-169 | a search down an ordered tree |
| `Hyperlinks.Table.GetUri` | hyperlinks.c:193-210 | getting in place |
| `Hyperlinks.Table.PutUri` | hyperlinks.c:141-190 | putting in place |
| `Hyperlinks.Table.ResetLinks` | hyperlinks.c:235-242 | the resetting loop in place |
| `Hyperlinks.Table.FreeLinks` | hyperlinks.c:245-252 | releasing in place |
| `Strings.StrcmpSame` | hyperlinks.c:97-100 | strcmp is antisymmetric and zero exactly on equal strings |
| `Strings.StrcmpTransitive` | hyperlinks.c:97-100 | strcmp is transitive |
| `Strings.StrcmpFirst` | hyperlinks.c:97-100 | the first characters that differ decide, and a string comes before a longer one it starts |
| `Events.DoGrows` | events.c:65-114 | while anything is dispatched a callback only adds sinks or marks them dead, exactly when it removes them |
| `Events.DispatchCalls` | events.c:105-110 | the loop calls, in order, exactly the sinks due that nothing removes before their turn |
| `Events.FireCalls` | events.c:93-114 | an event calls once each, in order, exactly the matching sinks there before it but those removed before any later one is called; nothing is freed while dispatching and nothing dead is left after |
| `Events.AddThenFire` | events.c:65-114 | a sink added comes last with a number of its own, and is called by the next event of its name unless removed first and by no other; the sinks there stay |
| `Events.RemoveThenFire` | events.c:81-114 | a sink removed is called by no later event; it goes at once, or is marked dead while anything is dispatched; the others stay |
| `Events.FireOne` | events.c:93-114 | an event with one sink does what its callback does, once, and nothing else; what it adds is not called |
| `Events.DoInOrder` | events.c:65-114 | the actions of a callback are done one after another |
| `Events.Sinks.Register` | events.c:65-78 | adding in place |
| `Events.Sinks.Unregister` | events.c:81-90 | removing in place, now or later |
| `Events.Sinks.FreeDead` | events.c:53-62 | the freeing loop |
| `Events.Sinks.FireEvent` | events.c:93-114 | firing in place, however callbacks nest |

## Left out

- LogicalLines.ReflowGrid: the pieces are proved for `Flowing` grids: cells one column wide, and every wrapped line followed by a line that is wrapped or not empty. The condition for logical lines is for one-column cells. The text and width clauses need neither; they ask only that a line without the extended flag holds compact entries, which is true of every line and which the result keeps.
- ENABLE_IMAGES branches, and OSC 133 markers beyond which line and column they move to; exit statuses are not kept.
- The width of `cellused` and `cellsize` as 16-bit numbers, line times, and allocation sizes.
- UTF-8 packing of extended cells is an injective code; decoding bytes into characters is not modelled.
- `grid_clear` and `grid_move_cells` are modelled on one line at a time; their loops over rows only repeat them. The wrapped flag that a full-width clear takes from the line above is in GridView.ClearLines.
- LineStore.Replay: a set-run of tabs or padding and background 9 on part of a line are left to the clauses of SetCells and ClearAgreesExactly, as their result depends on how the line is stored.
- CmdRuns.RunTree: a chain put after an item that waits, by cmdq_insert_after from outside, starts the order anew; CmdRuns.StepPlan says how.
- `grid_remove_history`, `grid_duplicate_lines` and the string conversions of grid.c.
- LogicalLines.WrapPosition: assumes fewer cells than UINT_MAX before the position, as the code's marker for past-the-end does.
- ControlRuns.StepKeeps: takes the no-output flag to come with its discarding, as at server-client.c:3116-3119.
- Outside the write callback one operation sees one time; libevent buffers, watermarks and the sockets are a count of bytes drained by any amount.
- Draining of pane buffers in window.c: pane data is a growing sequence, replaced only by a reset.
- `control_discard_all`, `control_stop`, window sizes and subscriptions of control.c.
- CmdQueue.RunIter: while it fires an item appends to other queues but does not continue the item that waits at the head of one, or insert after it, as `wait-for -S` and prompt callbacks do; CmdRuns has these as events of their own, between runs of a queue.
- Reference counts of `cmdq_state`, the count of items `cmdq_next` returns, and `cmdq_get_command`'s building of chains.
- A command of a dead or read-only client is one that fails and inserts nothing; guards written around commands are in the control model only.
- `wait-for -E` event waiters and `-l` listing. Wake, client loss and flush continue lockers without granting the lock, so they are in the structural invariants only.
- WaitFor.Wake: clients are numbers and stand for their names.
- The fuzzy time limit is taken not to be reached; parsing of patterns, styles and `format_skip` are not modelled, so terms and visible characters are given.
- `format_draw_centre` and `format_draw_absolute_centre`, whose centre offsets can go below zero.
- 32-bit overflow of sums of widths, of generations, inner numbers and external IDs.
- URIs and IDs are taken as already made printable by `utf8_stravis`; the trees are ordered sequences, not red-black trees.
- Event payloads; a callback is what it adds, removes and fires.

# codexd, verified

`codexd` is a daemon that queues, launches, supervises, times out, cancels, recovers and evicts
long-running tasks. Around its input and output it holds a number of protocols and algorithms; this
project models them in Dafny and proves what they are for.

How the models are built:

- What the program computes is a function on values; the code that updates objects and arrays in place is
  a class or a method with loops, proved equal to that function. Properties are proved of the functions and
  so hold of the in-place code.
- Concurrent parts are state machines: one step per critical section, steps interleaved in every order.
  Histories (jobs admitted, claims granted and settled, signals sent, enforcements started) are part of the
  state, and properties are proved of every run.
- Failures of files, sockets, probes and other processes, cancellation, and the answers of code outside the
  model are inputs. Nothing is assumed about them.

The parts, each with what keeps it safe and what it brings about:

- **Virtual terminal.** `Utf8`, `CsiParams`, `TermModel` say what it computes; `TermChunks` that cutting the
  stream does not matter; `TermInvariant` that wide characters stay whole and every index is in range;
  `TermText`, `TermPage` and `TermLines` that text, one line or many, reads back; `TermCsi`, `TermEffects`,
  `TermEdits`, `TermAttributes`, `TermModes` and `TermParser` what every control character, escape and
  sequence does to each cell and to the cursor, from their bytes on; `TermJoin` and `TermWrap` which input
  breaks what one might expect; `TermRows`, `TermScreen`, `Terminal` that the in-place code does the same and
  no two rows share storage.
- **Admission scheduler.** `SchedModel`, `SchedRuns`, `SchedWakeups`, `SchedEffects`, `Scheduler`: a bounded FIFO
  under two caps, with promotions that are committed or taken back.
- **Signals.** `PendingModel`, `PendingEffects` and `PendingSet` (claims to send), `Senders` and `SenderCourse`
  (the goroutines that hold them), `Leases` (lifecycle ownership), `Signals` (the authority validator as one step
  over the task store), `SignalLocks` (its steps under the two locks, which come to that one step).
- **Timeouts.** `TimerModel`, `TimerEffects`, `Timeouts`: generation-stamped timers with retries and a wait group.
- **Tasks.** `TaskDomain`, `TaskOutcomes`, `TaskObject` (the aggregate), `TaskSnapshots` (its persisted form),
  `TerminalWrites`, `TerminalOutcomes`, `TaskFiles` (exit code before snapshot).
- **Algorithms.** `Fingerprint` with `Sorting`, `Eviction`, `LogScan` and `LineFraming` with `TextLines`,
  `PathLocks`, `PathLockTable`.

Where the code does not do what one might expect, the model follows the code, and says exactly when:

- `Resize` does not forget a pending joiner (`internal/supervisor/vterm.go:716-734`). Pairing can break with
  the next wide rune; `TermInvariant.ResizeExact` says when, in terms of the screen before the call, and
  `TermJoin.JoinLossReachable` shows a byte stream.
- A wrap can be pending elsewhere than in the last column: ESC E keeps it (`internal/supervisor/vterm.go:177-180`),
  and so does leaving the alternate screen by mode 1049 (`internal/supervisor/vterm.go:555-558`).
  `TermWrap.ConsumeWrapExact` says when, `TermWrap.NextLineWitness` and `TermWrap.RestoreWitness` show byte streams.
- A private erase sequence loses the first digit of its number (`internal/supervisor/vterm.go:504-509`), so that
  `ESC [ ? 2 J`, which should erase the whole display, erases from the cursor on. `TermModes.PrivateEraseExact`
  says when that is the same, `TermModes.PrivateEraseWitness` shows a case where it is not.
- A launch failure cannot be recorded with its reason once the process is on record
  (`internal/execution/usecase/launchfailure.go:139-145`): the exit code is filed and the snapshot is not saved.
  `TerminalOutcomes.FailLaunchedOutcome` says when.
- The snapshot of a queued task is validated only when its turn comes (`internal/execution/usecase/advance.go:61-65`).
  If it does not validate, the task stays at the head and blocks the queue for good, with no cancellation and no
  refusal: `SchedWakeups.StuckRun`, `SchedWakeups.StuckForGood`; `SchedRuns.EveryRun` states the absence of lost
  wake-ups with this as the only exception.
- A refused start puts its task back in front of the slot it gave back and ends the release loop
  (`internal/execution/usecase/slotreleaser.go:47-50`). Unless another release is in flight or a later one
  begins, nobody comes for it: `SchedWakeups.NobodyComes`, `SchedWakeups.AnotherServes`, `SchedWakeups.RefusedRun`.
- The retention period is computed in 64-bit nanoseconds and wraps around from 106752 days on
  (`internal/store/taskplacementstore.go:250`): `Eviction.RetentionExact`, `Eviction.RetentionWraps`. The plan's
  properties hold for the wrapped value.

`dafny verify dfyconfig.toml` checks everything.

## Model

| member | source | states |
|---|---|---|
| `TermChunks.UnitStable` | internal/supervisor/vterm.go:99-126 | what follows a decided rune, control or escape byte changes neither its extent nor its effect |
| `TermChunks.RunSplit` | internal/supervisor/vterm.go:99-128 | consuming a concatenation is consuming the first part and then writing the second, held-back bytes included |
| `TermChunks.ChunkInvariance` | internal/supervisor/vterm.go:90-258 | two writes leave the terminal of one write of both, in every field of both screens and the parser, from every state and wherever the cut falls |
| `TermChunks.RunPendingWaits` | internal/supervisor/vterm.go:112-116 | only the beginning of a rune is ever held back, never more than three bytes |
| `TermChunks.AnyChunking` | internal/supervisor/vterm.go:90-128 | any number of chunks, empty ones included, amounts to one write of their concatenation |
| `Utf8.DecodeEncode` | internal/supervisor/vterm.go:112-121 | decoding an encoded scalar value gives it back with its length, whatever follows (sections 3 and 4 of RFC 3629) |
| `Utf8.EncodeDecode` | internal/supervisor/vterm.go:112-121 | bytes the decoder accepts are the encoding of the rune it returns, so overlong forms and surrogates are refused |
| `Utf8.DecodeStable` | internal/supervisor/vterm.go:112-116 | a rune not held back as incomplete decodes the same with more bytes behind it |
| `Utf8.IncompleteIsShort` | internal/supervisor/vterm.go:113 | an incomplete rune has at most three bytes |
| `CsiParams.NumeralSaturates` | internal/supervisor/vterm.go:518-530 | a digit string of any length is worth its decimal value cut off at 65535 |
| `CsiParams.SplitJoin` | internal/supervisor/vterm.go:511-514 | splitting a parameter string loses nothing: joining the fields gives it back, and no field holds a separator |
| `CsiParams.ScanNumeral` | internal/supervisor/vterm.go:518-529 | the digit loop computes the numeral, with its early exits on a non-digit and on overflow |
| `CsiParams.ParseParams` | internal/supervisor/vterm.go:510-534 | the two nested loops give every semicolon and colon field its numeral |
| `TermCsi.NumberRoundTrip` | internal/supervisor/vterm.go:518-530 | a number written in decimal is read back as itself, or as 65535 beyond that |
| `TermCsi.SequenceExecutes` | internal/supervisor/vterm.go:130-210 | writing ESC [, any parameter bytes and a final byte executes exactly that sequence and returns the parser to ground state |
| `TermCsi.PlainSequence` | internal/supervisor/vterm.go:360-487 | an ordinary sequence leaves the other screen alone and applies its action to the current one |
| `TermCsi.AddressCursor` | internal/supervisor/vterm.go:428-430 | cursor addressing, from its bytes: the cursor lands on the named cell cut off at the edges and no cell changes |
| `TermCsi.InsertDeleteLines` | internal/supervisor/vterm.go:458-465 | inserting lines and deleting them again loses exactly the lowest lines of the region |
| `TermCsi.ScrollUpDown` | internal/supervisor/vterm.go:596-625 | scrolling up and down again loses exactly the highest lines of the region |
| `TermCsi.RunKeepsPrimary` | internal/supervisor/vterm.go:82-87 | no byte stream that stays on the alternate screen touches the primary one |
| `TermCsi.AlternateRoundTrip` | internal/supervisor/vterm.go:535-562 | mode 1049 entered, anything done there, and left: the primary screen is back with every cell, its cursor and brightness |
| `TermInvariant.EraseRangeOk` | internal/supervisor/vterm.go:573-575 | erasing any range of columns keeps wide pairs whole |
| `TermInvariant.RepairOk` | internal/supervisor/vterm.go:645-661 | repair makes any row with clean continuations well paired |
| `TermInvariant.RepairKeepsSound` | internal/supervisor/vterm.go:645-661 | repair changes nothing in a well paired row |
| `TermInvariant.PrintIntoOk` | internal/supervisor/vterm.go:323-330 | printing a character over any part of wide characters keeps the row well paired |
| `TermInvariant.PutOk` | internal/supervisor/vterm.go:302-336 | printing, wrapping, scrolling and joining keep every row well paired |
| `TermInvariant.ScrollOk` | internal/supervisor/vterm.go:604-625 | scrolling keeps every row well paired |
| `TermInvariant.ShiftCharsOk` | internal/supervisor/vterm.go:626-643 | inserting and deleting characters keep every row well paired |
| `TermInvariant.ExecuteCsiQuiet` | internal/supervisor/vterm.go:360-487 | every control sequence keeps pairing on both screens and leaves no joiner pending |
| `TermInvariant.ConsumeInv` | internal/supervisor/vterm.go:99-126 | every unit of input keeps the invariant of pairing, ranges and joiner |
| `TermInvariant.WriteInv` | internal/supervisor/vterm.go:90-128 | every write keeps pairing on both screens, all ranges and the joiner condition |
| `TermInvariant.EveryStreamSafe` | internal/supervisor/vterm.go:62-128 | from a new terminal of any size, every stream in any chunks keeps wide pairs whole on both screens, cursor and scroll region in range |
| `TermInvariant.ResizeRowKeeps` | internal/supervisor/vterm.go:717-727 | resizing a sound row keeps every cell that stays, except perhaps the last one of a row cut short |
| `TermInvariant.ResizeExact` | internal/supervisor/vterm.go:707-738 | resizing always keeps pairing, and keeps the joiner condition if and only if, on the screen before, a pending joiner has nothing, the second half of a wide character, or text in the column before the cut-off cursor |
| `TermInvariant.ResizeLosesPairing` | internal/supervisor/vterm.go:707-738 | whenever that condition fails, the next wide rune breaks pairing |
| `TermJoin.JoinLossReachable` | internal/supervisor/vterm.go:302-336 | a byte stream on a new terminal after which a resize to two columns and one wide rune, written as bytes, break pairing |
| `TermWrap.ConsumeWrapExact` | internal/supervisor/vterm.go:99-258 | from a state in which a wrap is pending in the last column only, a unit of input loses that if and only if it is ESC E with a wrap pending, or a reset of mode 1049 that leaves the alternate screen with a wrap pending on the primary one and its cursor saved elsewhere |
| `TermWrap.RunWrap` | internal/supervisor/vterm.go:90-128 | a stream without such input keeps it |
| `TermWrap.NextLineWitness` | internal/supervisor/vterm.go:177-180 | the bytes of a full line and ESC E leave a wrap pending in the first column |
| `TermWrap.RestoreWitness` | internal/supervisor/vterm.go:542-558 | so do a full line, mode 47 set and mode 1049 reset |
| `TermText.EraseRangeEffect` | internal/supervisor/vterm.go:573-575 | which cells erasing blanks: the range, and the two outer halves of wide characters cut by it |
| `TermText.PrintEffect` | internal/supervisor/vterm.go:323-330 | every cell of a row after printing, said cell by cell |
| `TermText.WriteLine` | internal/supervisor/vterm.go:90-128 | the bytes of a line of printable text leave exactly its layout on the line and the cursor behind it |
| `TermText.LayoutGlyphs` | internal/supervisor/vterm.go:687-700 | reading a layout back, continuations omitted, gives the runes |
| `TermText.TextRoundTrip` | internal/supervisor/vterm.go:62-704 | text encoded, cut anyhow, written to a new terminal and read back with TextRows is the same text |
| `Utf8.StandardExamples` | internal/supervisor/vterm.go:112-121 | the examples of section 7 of RFC 3629 are encoded as given there |
| `TermParser.RuneEffect` | internal/supervisor/vterm.go:112-125 | a decoded rune is put on the current screen; a byte that decodes to nothing and a two-byte control character are passed over; the rest of the input follows |
| `TermParser.CommandSwallowed` | internal/supervisor/vterm.go:215-220 | an operating system command of any length is swallowed up to its bell, both screens kept |
| `TermParser.StringSwallowed` | internal/supervisor/vterm.go:215-229 | so is every string of any length up to ESC \ |
| `TermParser.Cancelled` | internal/supervisor/vterm.go:199-226 | a string or sequence of any length is cancelled by CAN or SUB without effect |
| `TermParser.OverlongDropped` | internal/supervisor/vterm.go:130-149 | a control sequence with 4096 parameter bytes or more has no effect and leaves the parser in ground state |
| `TermParser.CharsetSwallowed` | internal/supervisor/vterm.go:188-189 | choosing a character set leaves no trace |
| `TermParser.OtherEscapesIgnored` | internal/supervisor/vterm.go:190-191 | nor does any other byte after ESC |
| `TermEffects.LineFeedEffect` | internal/supervisor/vterm.go:286-293 | every row after a line feed: above the bottom of the region only the cursor moves; on it the rows of the region move up by one and the bottom one is blank |
| `TermEffects.ReverseIndexEffect` | internal/supervisor/vterm.go:294-301 | every row after a reverse index, the mirror image |
| `TermEffects.ControlEffect` | internal/supervisor/vterm.go:259-285 | carriage return, backspace and the three feeds; all other controls change nothing but a pending joiner |
| `TermEffects.TabEffect` | internal/supervisor/vterm.go:279-280 | a tab goes to the next multiple of eight, or to the last column |
| `TermEffects.EscapeEffect` | internal/supervisor/vterm.go:163-183 | ESC 7, 8, D, E and M from their bytes: saving, restoring, feeds and reverse index, the other screen untouched |
| `TermEffects.ResetEffect` | internal/supervisor/vterm.go:184-187 | ESC c leaves two blank screens and shows the primary |
| `TermEffects.MoveEffect` | internal/supervisor/vterm.go:431-442 | the seven single-number movements from their bytes: A up, B down, C right, D left, G and backtick to a column, d to a row, cut off at the edges, no cell changed |
| `TermEffects.AddressEffect` | internal/supervisor/vterm.go:428-430 | H and f land on the named cell cut off at the edges, no cell changed |
| `TermEffects.RegionEffect` | internal/supervisor/vterm.go:447-453 | r sets the region and sends the cursor home if the region has two lines or more, and otherwise changes nothing |
| `TermEffects.LinesUpEffect` | internal/supervisor/vterm.go:454-465 | every row after S or M: the rows of the region, or those from the cursor on, move up, blank ones enter below |
| `TermEffects.LinesDownEffect` | internal/supervisor/vterm.go:454-465 | every row after T or L: the same rows move down, blank ones enter above |
| `TermEdits.EraseLineEffect` | internal/supervisor/vterm.go:563-576 | every cell after K: from the cursor on, up to the cursor or the whole line, with the halves of wide characters cut |
| `TermEdits.EraseDisplayEffect` | internal/supervisor/vterm.go:577-595 | every cell after J: below, above or all, with the line of the cursor as K has it |
| `TermEdits.EraseCharsEffect` | internal/supervisor/vterm.go:470-473 | every cell after X: so many columns from the cursor on |
| `TermEdits.ShiftEffect` | internal/supervisor/vterm.go:626-661 | every cell after @ and P: blanks pushed in, or cells taken out, and halves of wide characters blanked |
| `TermEdits.SavePlain` | internal/supervisor/vterm.go:474-486 | s saves the cursor and u restores it |
| `TermEdits.OtherFinals` | internal/supervisor/vterm.go:396-487 | any other final byte changes nothing but a pending joiner |
| `TermAttributes.AttributesEffect` | internal/supervisor/vterm.go:396-427 | a sequence of attribute fields, from its bytes, sets brightness to what they leave it at one after the other, and changes nothing else |
| `TermAttributes.AttributeByAttribute` | internal/supervisor/vterm.go:406-427 | field by field: 2 turns faint on, 0 and 22 turn it off; a colour takes two further fields after 5, four after 2, none otherwise or if it has colons |
| `TermAttributes.TrueColourIgnored` | internal/supervisor/vterm.go:415-426 | the parts of a true colour are no attributes, whatever they are |
| `TermAttributes.PaletteIgnored` | internal/supervisor/vterm.go:415-426 | nor is the number of a palette colour |
| `TermModes.PutEffect` | internal/supervisor/vterm.go:302-336 | printing at the cursor: on the line if there is room, else after one line feed; behind it the cursor, or in the last column with a wrap pending |
| `TermModes.AttachEffect` | internal/supervisor/vterm.go:302-346 | a zero-width rune, or any after a joiner, is added to exactly the character before the cursor |
| `TermModes.ModeEffect` | internal/supervisor/vterm.go:535-562 | modes 47, 1047 and 1049, set and reset, from their bytes: which screen is shown, which is blanked, and what happens to cursor and brightness; twice is once, other modes do nothing |
| `TermModes.ModesEffect` | internal/supervisor/vterm.go:535-562 | a private mode sequence switches by each of its parameters in turn |
| `TermModes.SwitchesInTurn` | internal/supervisor/vterm.go:539-561 | several modes in one sequence do what they do one after the other |
| `TermModes.UnknownIgnored` | internal/supervisor/vterm.go:361-382 | other prefixes, other private sequences and parameters that are not numbers change nothing but a pending joiner |
| `TermModes.MissingIsZero` | internal/supervisor/vterm.go:383-390 | a missing number means zero |
| `TermModes.PrivateEraseEffect` | internal/supervisor/vterm.go:504-509 | a private erase with any one digit does what the ordinary one does with zero |
| `TermModes.PrivateEraseExact` | internal/supervisor/vterm.go:504-509 | a private erase of display or line does what the ordinary one with its number does if and only if every cell that only one of that number and zero reaches is blank already |
| `TermModes.PrivateEraseWitness` | internal/supervisor/vterm.go:504-509 | one letter on a new terminal stays there under ESC [ ? 2 J |
| `TermModes.ResizeEffect` | internal/supervisor/vterm.go:707-738 | every cell and setting after resizing: what fits stays, halves of wide characters cut are blanked, the rest is blank |
| `TermPage.NextLine` | internal/supervisor/vterm.go:286-293 | a line ended at the bottom of a page moves the page on by one line |
| `TermLines.WritePage` | internal/supervisor/vterm.go:90-128 | any number of lines, each ended by CR LF, leave on a new terminal exactly the page of the last ones, every cell and the cursor |
| `TermLines.TextPageRoundTrip` | internal/supervisor/vterm.go:62-704 | a text of any number of lines, encoded and cut anyhow, reads back as its last lines, as many as the terminal has room for |
| `TermLines.OpenTextRoundTrip` | internal/supervisor/vterm.go:62-704 | the same with the last line not ended |
| `TermRows.EraseWideAt` | internal/supervisor/vterm.go:347-358 | the in-place erase of one column equals its specification on the row |
| `TermRows.EraseCells` | internal/supervisor/vterm.go:573-575 | the column loop equals erasing the range |
| `TermRows.InsertCells` | internal/supervisor/vterm.go:631-635 | the overlapping copy equals inserting blanks |
| `TermRows.DeleteCells` | internal/supervisor/vterm.go:636-641 | the overlapping copy equals deleting cells |
| `TermRows.RepairWideRow` | internal/supervisor/vterm.go:645-661 | the in-place pass equals the left-to-right repair |
| `TermRows.PrintCells` | internal/supervisor/vterm.go:323-330 | the in-place stores equal printing into the row |
| `TermScreen.SpliceDistinct` | internal/supervisor/vterm.go:604-625 | shifting row slices and entering new rows never makes two rows share storage |
| `TermScreen.ShiftRowsUp` | internal/supervisor/vterm.go:609-613 | the shifted slice of rows holds the shifted grid, rows distinct, new ones freshly allocated |
| `TermScreen.ShiftRowsDown` | internal/supervisor/vterm.go:620-624 | the slice of rows shifted down holds the shifted grid, rows distinct, new ones freshly allocated |
| `TermScreen.ScanGraphics` | internal/supervisor/vterm.go:400-427 | the attribute loop, with the arguments extended colours swallow, computes brightness as TermAttributes.AttributeByAttribute says |
| `TermScreen.ScreenBuffer.ScrollUpAt` | internal/supervisor/vterm.go:604-614 | the heap screen after it views as the specified screen, no two rows aliased |
| `TermScreen.ScreenBuffer.ScrollDownAt` | internal/supervisor/vterm.go:615-625 | the heap screen after scrolling down views as the specified screen, no two rows aliased |
| `TermScreen.ScreenBuffer.LineFeed` | internal/supervisor/vterm.go:286-293 | line feed in place equals its specification, whose every row TermEffects.LineFeedEffect gives |
| `TermScreen.ScreenBuffer.ReverseIndex` | internal/supervisor/vterm.go:294-301 | reverse index in place: up one row, or the region scrolls when the cursor is on its top row |
| `TermScreen.ScreenBuffer.FindPrevious` | internal/supervisor/vterm.go:337-346 | the column a zero-width rune attaches to |
| `TermScreen.ScreenBuffer.Put` | internal/supervisor/vterm.go:302-336 | printing in place: attach, wrap, scroll, erase, store, advance |
| `TermScreen.ScreenBuffer.ControlChar` | internal/supervisor/vterm.go:266-284 | control characters in place |
| `TermScreen.ScreenBuffer.EraseLine` | internal/supervisor/vterm.go:563-576 | line erasing in place, four modes, equals its specification, whose every cell TermEdits.EraseLineEffect gives |
| `TermScreen.ScreenBuffer.EraseDisplay` | internal/supervisor/vterm.go:577-595 | display erasing in place, four modes |
| `TermScreen.ScreenBuffer.ShiftChars` | internal/supervisor/vterm.go:626-643 | character insertion and deletion in place, followed by repair |
| `TermScreen.ScreenBuffer.ExecutePlain` | internal/supervisor/vterm.go:380-487 | an ordinary control sequence in place equals its specification; TermEffects, TermEdits and TermAttributes say what each final byte does |
| `TermScreen.ScreenBuffer.EscapeScreen` | internal/supervisor/vterm.go:163-183 | two-byte escapes in place |
| `TermScreen.ScreenBuffer.ResizeTo` | internal/supervisor/vterm.go:716-734 | resizing copies into new rows, repairs them and clamps cursor, saved cursor and region |
| `Terminal.VirtualTerminal.ConsumeEscape` | internal/supervisor/vterm.go:130-258 | the escape state machine in place, with its length limits |
| `Terminal.VirtualTerminal.ExecuteCsi` | internal/supervisor/vterm.go:360-487 | control sequences in place, private ones included |
| `Terminal.VirtualTerminal.SwitchScreens` | internal/supervisor/vterm.go:535-562 | the loop over private modes in place |
| `Terminal.VirtualTerminal.Write` | internal/supervisor/vterm.go:90-128 | the in-place write is the specified one, reports all bytes taken, and keeps the invariant |
| `Terminal.VirtualTerminal.Resize` | internal/supervisor/vterm.go:707-738 | the in-place resize is the specified one |
| `Terminal.VirtualTerminal.ScreenRows` | internal/supervisor/vterm.go:678-704 | one string per row, trailing blanks cut |
| `Terminal.ReadRow` | internal/supervisor/vterm.go:682-701 | the two loops read a row as its text |
| `SchedModel.ReindexOk` | internal/execution/queue.go:165-176 | reindexing gives every queued task its index plus one and no other task a new position |
| `SchedRuns.AdmitInv` | internal/execution/usecase/admit.go:31-69 | admission keeps caps, depth, positions, conservation and history |
| `SchedRuns.AdvanceQueueCases` | internal/execution/usecase/advance.go:30-84 | exactly when an advance fails: cancelled at one of its six looks, a head that has left the queued state, or one that has its slot and whose snapshot does not validate; a failure leaves the scheduler as a mere release would, but that a head no longer queued is dropped; otherwise exactly the head is promoted |
| `SchedRuns.DroppedHeadPositions` | internal/execution/usecase/advance.go:47-50 | dropping such a head does not renumber: the others keep a position one too high |
| `SchedRuns.AdvanceInv` | internal/execution/usecase/advance.go:30-83 | advancing keeps caps, depth, positions, conservation and history |
| `SchedRuns.NextInv` | internal/execution/usecase/admit.go:31-111 | every step keeps them, refusals and compensations included |
| `SchedRuns.NextAwakeFifo` | internal/execution/usecase/slotreleaser.go:37-53 | every step keeps launch order and the absence of lost wake-ups, cancellations, refusals and stuck heads apart |
| `SchedRuns.NextOrder` | internal/execution/usecase/advance.go:87-101 | every step keeps the queue in order of admission, as long as no start is refused while another is undecided |
| `SchedRuns.EveryRun` | internal/execution/usecase/advance.go:30-110 | in every world of every interleaving: active and impl tasks within caps, queue plus unresolved promotions within depth, stored positions right, no job lost or doubled; without refusals admitted equals launched followed by the queue; with no cancellation and no refused start, whenever no releaser is in flight the queue is empty, its head is blocked, or its head has a snapshot that does not validate |
| `SchedEffects.AdmitOutcome` | internal/execution/usecase/admit.go:31-69 | each outcome of an admission if and only if: at once with a slot of its kind free and nobody waiting, queued or full otherwise, refused on bad input |
| `SchedEffects.AdmitEffect` | internal/execution/usecase/admit.go:55-69 | what is held afterwards: a slot and a launching registration, or the last place in line, whose position is the one told and stored; nobody else's entry changes, a task turned away leaves no trace |
| `SchedEffects.UndoAdmitRestores` | internal/execution/usecase/admit.go:104-110 | undoing an immediate admission gives back active, launching, queue and promotions exactly, and every other task's position |
| `SchedEffects.UndoAdmitFrees` | internal/execution/usecase/admit.go:104-110 | the slot and the registration are free whenever it is undone, and no other task's |
| `SchedEffects.AdvanceOutcome` | internal/execution/usecase/advance.go:30-84 | the head is promoted if and only if no look sees a cancellation and, the finished task's slot given up, it can have its own; nothing to do if and only if nobody waits or the head is blocked |
| `SchedEffects.PromotionEffect` | internal/execution/usecase/advance.go:66-83 | a promoted head has a slot of its kind, is launching and unresolved; the line moves up and is numbered from one; the finished task's slot is free and nobody else's changes |
| `SchedEffects.ResolveEffect` | internal/execution/usecase/advance.go:87-110 | accepting a start resolves its promotion and nothing else; refusing it puts the task back in front without a slot, the line numbered again |
| `SchedEffects.ReleaseServes` | internal/execution/usecase/slotreleaser.go:37-53 | undisturbed, a release frees the finished task's slot and serves exactly as many of the line as fit one after the other: those hold slots of their kind and are launching, the others wait as before |
| `SchedEffects.PromotionsResolved` | internal/execution/usecase/advance.go:76-110 | in every world of every interleaving the unresolved promotions are exactly the tasks whose start is still undecided |
| `SchedWakeups.StuckRun` | internal/execution/usecase/advance.go:61-65 | a run with no cancellation and no refusal that ends with a task in front of a free slot and nobody coming: its snapshot does not validate |
| `SchedWakeups.StuckForGood` | internal/execution/usecase/advance.go:61-65 | from there, whatever happens, releases included, that task stays in front and nothing is launched any more |
| `SchedWakeups.RefusalLeavesFree` | internal/execution/usecase/advance.go:87-101 | a refused start leaves its task at the head, in front of the slot it gave back |
| `SchedWakeups.NobodyComes` | internal/execution/usecase/slotreleaser.go:47-50 | with no release in flight and none beginning, every continuation leaves the head where it is and launches nothing |
| `SchedWakeups.AnotherServes` | internal/execution/usecase/advance.go:51-83 | a release in flight that is not cancelled gives the head its slot, if it is free and the snapshot validates |
| `SchedWakeups.RefusedRun` | internal/execution/usecase/slotreleaser.go:47-50 | a run in which a refused start leaves a launchable task in front of a free slot with no release in flight |
| `SchedRuns.CompensateUndoes` | internal/execution/usecase/advance.go:87-101 | compensating a promotion restores queue, positions, active, launching and promotions exactly, and compensating twice is compensating once |
| `Scheduler.RemoveRestore` | internal/execution/queue.go:133-157 | restoring a removed payload at its index gives back the queue and every stored position |
| `Scheduler.ReleaseLoopDrains` | internal/execution/usecase/slotreleaser.go:37-53 | undisturbed, the release loop serves a prefix of the queue in order and stops only when nothing waits or the head is blocked |
| `Scheduler.TaskQueue.Enqueue` | internal/execution/queue.go:87-92 | appends and reports the one-based position |
| `Scheduler.TaskQueue.Dequeue` | internal/execution/queue.go:93-102 | takes the head |
| `Scheduler.TaskQueue.Prepend` | internal/execution/queue.go:103-107 | puts a payload in front |
| `Scheduler.TaskQueue.Reindex` | internal/execution/queue.go:165-176 | the loop rewrites positions as specified |
| `Scheduler.TaskQueue.Lookup` | internal/execution/queue.go:124-132 | the first payload of a task, if any |
| `Scheduler.TaskQueue.Remove` | internal/execution/queue.go:133-146 | takes the payload out and reindexes; nothing changes if it is absent |
| `Scheduler.TaskQueue.Restore` | internal/execution/queue.go:147-158 | puts a payload back at an index and reindexes |
| `Scheduler.SlotScheduler.Admit` | internal/execution/usecase/admit.go:31-69 | the in-place admission is the specified one; SchedEffects.AdmitOutcome and SchedEffects.AdmitEffect say which outcome when |
| `Scheduler.SlotScheduler.UndoAdmit` | internal/execution/usecase/admit.go:104-110 | gives the reservation back, as SchedEffects.UndoAdmitRestores says |
| `Scheduler.SlotScheduler.Advance` | internal/execution/usecase/advance.go:30-83 | the in-place advance with its rollbacks is the specified one |
| `Scheduler.SlotScheduler.Compensate` | internal/execution/usecase/advance.go:87-101 | the in-place compensation is the specified one, a no-op on a resolved promotion |
| `Scheduler.SlotScheduler.Commit` | internal/execution/usecase/advance.go:103-110 | resolves the promotion |
| `Scheduler.SlotScheduler.ReleaseAndAdvance` | internal/execution/usecase/slotreleaser.go:37-53 | the loop terminates, each round with a shorter queue, in the specified state |
| `PendingModel.StepsClimb` | internal/recovery/pending.go:80-273 | over any operations without removals an entry only climbs: unsent or claimed, then confirm-only, then sent |
| `PendingModel.NoClaimAboveBottom` | internal/recovery/pending.go:127-198 | once it has left the bottom level no send claim is granted by either door under any authority |
| `PendingModel.ForeignersKeep` | internal/recovery/pending.go:80-273 | while a claim is held nobody else can change its entry in any way |
| `PendingModel.OwnershipStep` | internal/recovery/pending.go:200-262 | only a successful settlement of that very claim ends ownership |
| `PendingModel.GrantStep` | internal/recovery/pending.go:152-197 | a grant issues the next token, and the holder owns the entry |
| `PendingModel.NextExclusive` | internal/recovery/pending.go:80-273 | every operation keeps tokens unique, claims settled at most once, and unsettled exactly while owning |
| `PendingModel.EveryRun` | internal/recovery/pending.go:80-273 | over every run no token is reissued, no claim is settled twice, at most one claim per task is outstanding, and a settled token never has an effect again |
| `PendingEffects.ClaimAnswers` | internal/recovery/pending.go:127-198 | each answer to a claim, by either door, if and only if its entry is so: granted exactly when unsent under that very authority or, to the first sender, absent; a wrong authority closes the entry to sending |
| `PendingEffects.HeldClaim` | internal/recovery/pending.go:127-198 | whatever others do meanwhile, a held entry keeps the authority it was claimed under and remembers whether it was there before the first sender claimed it |
| `PendingEffects.CompletedIsSent` | internal/recovery/pending.go:200-213 | a completed send is final: until the task itself is removed every later claim, by either door and under any authority, is answered that it was sent |
| `PendingEffects.InvalidatedMustConfirm` | internal/recovery/pending.go:229-243 | an invalidated one is confirm-only: that is the answer at once, and no later claim is granted until the task itself is removed |
| `PendingEffects.ReleasedIsRetried` | internal/recovery/pending.go:215-227 | a released one is granted again, by either door, if and only if under the authority of the claim released |
| `PendingEffects.RemovedClaim` | internal/recovery/pending.go:245-262 | a removed claim leaves no entry, unless the first sender claimed one that was there: that one waits under the same authority |
| `PendingEffects.RemoveClaimUndoes` | internal/recovery/pending.go:161-262 | a first send claimed and given up at once leaves the entries as they were |
| `PendingEffects.RegisterEffect` | internal/recovery/pending.go:80-125 | exactly when a registration is refused, and where it takes an entry: sent stays sent, confirm-only never falls back, unsent takes the newest authority |
| `PendingEffects.RemoveEffect` | internal/recovery/pending.go:264-273 | an entry is removed if and only if nobody holds a claim on it |
| `PendingEffects.OthersUntouched` | internal/recovery/pending.go:80-273 | no operation touches another task's entry |
| `PendingSet.PendingReconciliationSet.Register` | internal/recovery/pending.go:80-125 | registers in place; no owner of a claim gains or loses anything, and the history stays exclusive |
| `PendingSet.PendingReconciliationSet.ClaimForSend` | internal/recovery/pending.go:127-159 | claims in place; a grant carries a token never issued before and is the only claim outstanding on its task |
| `PendingSet.PendingReconciliationSet.ClaimInitialSend` | internal/recovery/pending.go:161-198 | the same promise for the first sender, whose entry may not exist yet |
| `PendingSet.PendingReconciliationSet.CompleteSend` | internal/recovery/pending.go:200-213 | succeeds exactly for the owner, never twice for a claim, and leaves the specified entry, which PendingEffects.CompletedIsSent shows final |
| `PendingSet.PendingReconciliationSet.ReleaseSend` | internal/recovery/pending.go:215-227 | succeeds exactly for the owner, never twice for a claim, and leaves the specified entry, which PendingEffects.ReleasedIsRetried shows claimable again |
| `PendingSet.PendingReconciliationSet.InvalidateSend` | internal/recovery/pending.go:229-243 | succeeds exactly for the owner, never twice for a claim, ends the ownership; otherwise nothing changes |
| `PendingSet.PendingReconciliationSet.RemoveClaim` | internal/recovery/pending.go:245-262 | succeeds exactly for the owner, never twice for a claim, ends the ownership; otherwise nothing changes |
| `PendingSet.PendingReconciliationSet.Remove` | internal/recovery/pending.go:264-273 | removes in place, never from under the owner of a claim, and the history stays exclusive |
| `Senders.OwnSettlement` | internal/recovery/reconcile.go:273-413 | a sender that settles its claim always succeeds |
| `Senders.NextNoLeak` | internal/recovery/reconcile.go:273-413 | every step of any sender, of anyone else on the pending set, and of the environment keeps the books of claims |
| `Senders.EveryClaimSettledOnce` | internal/recovery/adopt.go:648-894 | over every interleaving of reconciler and adoption senders: a sender at work owns its claim, a finished one has settled it exactly once on every path, a send recorded as complete was really signalled, a claimed entry always has someone working on it, and every signal was legitimate when sent |
| `Senders.AuthorityDrawnUp` | internal/recovery/adopt.go:648-700 | an authority is drawn up from a snapshot if and only if it may be signalled and its process is on record; the snapshot matches it |
| `Senders.SpawnHires` | internal/recovery/reconcile.go:273-309 | a sender is hired if and only if its claim is granted, beginning with the look for a cancellation or at once with the signal |
| `Senders.ActedSends` | internal/execution/timeout.go:282-300 | the first signal asks the process to end and the second kills it; each goes out exactly if the validator executes it, no other phase sends one |
| `Senders.SenderFinishes` | internal/recovery/reconcile.go:310-413 | whatever it finds and is told, a sender finishes within nine of its own steps |
| `Senders.EverySettlementGrounded` | internal/recovery/adopt.go:648-894 | over every interleaving: a send is completed only while the process was not seen dead, a claim removed only when it was, and an entry closed to sending only when it was or when the authority, good when claimed, has lapsed, after which no signal goes out under it anyway |
| `SenderCourse.SenderDecides` | internal/recovery/reconcile.go:310-413 | on every course of answers the sender that moves among others settles as the code read from top to bottom does |
| `SenderCourse.DecisionOutcome` | internal/recovery/reconcile.go:310-413 | exactly when a claim is settled which way: completed if everything was sent and the process is still there; removed if it was seen dead and closed down; released if it may be tried again; invalidated otherwise |
| `Signals.ValidateOutcome` | internal/recovery/process_signal_authority.go:36-71 | a signal goes out if and only if the authority is well formed, the task loads and matches it and a lease named is current; then exactly that one, otherwise none |
| `Signals.RefusalIsFinal` | internal/recovery/process_signal_authority.go:48-56 | an authority drawn up while good is refused if and only if it has lapsed, and after that no signal is sent under it |
| `SignalLocks.NextLocksOk` | internal/recovery/process_signal_authority.go:41-56 | what a validator has learnt under the task mutex and the registry read lock is still so at every later step of anyone |
| `SignalLocks.StepRefines` | internal/execution/lifecycle_ownership.go:57-66 | at the moment of the signal the atomic validation would pass on the store and leases of that moment; every other step changes the system as the atomic one does or not at all |
| `SignalLocks.PassIsAtomic` | internal/recovery/process_signal_authority.go:36-71 | a validator that finds the task mutex free and is not interfered with does, step by step, exactly what the atomic one does, signal included, and gives back both locks |
| `SignalLocks.EverySignalLegitimate` | internal/recovery/process_signal_authority.go:36-71 | over every interleaving of lock, load, lease check, signal and unlock with saves and lease changes: when a signal goes out, the stored task is at that moment in the expected state, timeout or cancelling, with that PID and start time, and the lease generation, if given, is current |
| `SignalLocks.NoSignalAfterMovingOn` | internal/execution/timeout.go:282-300 | from the moment the task leaves the state or the lease ends, no signal goes out under that authority, validators already past their checks included |
| `Signals.NoSignalAfterMovingOn` | internal/execution/timeout.go:282-300 | the same over runs of atomic validations |
| `Leases.AcquireOutcome` | internal/execution/lifecycle_ownership.go:27-38 | granted if and only if the task is unowned, with the next generation, no other task's lease changed |
| `Leases.EndOutcome` | internal/execution/lifecycle_ownership.go:39-47 | ending the current lease frees the task, ending another changes nothing |
| `Leases.LapsedForGood` | internal/execution/lifecycle_ownership.go:27-48 | a generation given out that is not current never becomes current again, and only its own release ends it |
| `Leases.Registry.Acquire` | internal/execution/lifecycle_ownership.go:27-48 | grants a new generation if the task is unowned, with a release handle |
| `Leases.Registry.WithCurrent` | internal/execution/lifecycle_ownership.go:57-66 | the action may run exactly when the generation is current |
| `Leases.Lease.Release` | internal/execution/lifecycle_ownership.go:39-47 | runs at most once and ends no lease but its own |
| `TimerModel.SetPhaseOk` | internal/execution/timeout.go:144-150 | moving a callback on keeps the invariant and the wait-group balance |
| `TimerModel.ArmOk` | internal/execution/timeout.go:95-153 | arming keeps the timer invariant: one active callback per generation, entries backed by it, starts counted |
| `TimerModel.BeginOk` | internal/execution/timeout.go:119-131 | a callback entering keeps the timer invariant: it enforces exactly when its generation is still armed |
| `TimerModel.FinishOk` | internal/execution/timeout.go:155-205 | finishing and scheduling a retry keep the timer invariant, retries counted up to six |
| `TimerModel.CloseOk` | internal/execution/timeout.go:216-239 | closing keeps the timer invariant and empties the table, in any order of the map |
| `TimerModel.EveryRun` | internal/execution/timeout.go:95-239 | over every run, per generation: at most one enforcement at a time and seven in all; the wait group counts exactly the unfinished unstopped callbacks |
| `TimerModel.Retires` | internal/execution/timeout.go:101-104 | re-arming, disarming and closing each retire the generation |
| `TimerModel.RetiredForGood` | internal/execution/timeout.go:119-128 | under a retired generation nothing starts ever again |
| `TimerModel.ClosedIsQuiet` | internal/execution/timeout.go:236-238 | when a closed watcher's count is zero every callback is over and no step changes it again |
| `TimerEffects.ArmEffect` | internal/execution/timeout.go:95-153 | arming an open watcher makes the task wait under a new generation and stops a callback still waiting for it; a closed one does not arm; nobody else's changes |
| `TimerEffects.DisarmEffect` | internal/execution/timeout.go:207-214 | disarming removes the entry and stops its callback unless it has fired |
| `TimerEffects.BeginEffect` | internal/execution/timeout.go:119-131 | a fired callback goes on to enforce if and only if its generation is armed and idle and the watcher open; otherwise it leaves and nothing else happens |
| `TimerEffects.FinishEffect` | internal/execution/timeout.go:155-205 | an awaited enforcement that ends leaves its task waiting on a new callback of the same generation if and only if the failure may be retried, fewer than six retries were made and the watcher is open; otherwise the entry is gone |
| `TimerEffects.CloseEffect` | internal/execution/timeout.go:226-235 | closing stops every callback an entry waits on and touches no other |
| `TimerEffects.WaitingIsEnforced` | internal/execution/timeout.go:116-137 | whatever happens elsewhere, a waiting task whose callback fires and enters is enforced |
| `TimerEffects.FailureIsRetried` | internal/execution/timeout.go:167-204 | whatever happens elsewhere, an enforcement that fails and may be retried leaves its task waiting again, six times |
| `TimerEffects.SevenTimes` | internal/execution/timeout.go:26 | the bound is met: a run in which one generation is enforced exactly seven times |
| `Timeouts.TimeoutWatcher.Arm` | internal/execution/timeout.go:95-153 | the in-place arming is the specified one and keeps the invariant |
| `Timeouts.TimeoutWatcher.Disarm` | internal/execution/timeout.go:207-214 | the in-place disarming is the specified one and keeps the invariant |
| `Timeouts.TimeoutWatcher.Close` | internal/execution/timeout.go:226-235 | the loop over the map stops every timer, in some order, and keeps the invariant |
| `Timeouts.TimeoutWatcher.Begin` | internal/execution/timeout.go:119-131 | the in-place check is the specified one, and answers whether the callback enforces; TimerEffects.BeginEffect says when |
| `Timeouts.TimeoutWatcher.FinishExecution` | internal/execution/timeout.go:155-205 | the in-place finish is the specified one; TimerEffects.FinishEffect says when it schedules a retry |
| `TaskDomain.ApplyProgress` | internal/domain/task.go:72-91 | no operation succeeds on a terminal task or leads back; leaving timeout or cancelling is progress |
| `TaskDomain.ApplySound` | internal/domain/task.go:94-264 | every operation keeps: recovery origin set exactly in the recovery lineage, matching the way a task was lost, and an exit code only on ended tasks |
| `TaskDomain.ApplyKeepsIdentity` | internal/domain/task.go:94-264 | identity, request and a recorded process never change |
| `TaskDomain.LiveSound` | internal/domain/task.go:72-264 | over any life soundness and identity last and progress never decreases |
| `TaskDomain.TerminalForever` | internal/domain/task.go:72-91 | a terminal task never changes again, in any field |
| `TaskDomain.LeftForGood` | internal/domain/task.go:72-91 | a task that leaves timeout or cancelling never returns to it |
| `TaskOutcomes.ApplyAccepts` | internal/domain/task.go:75-91 | the transition table read by operation: each one is accepted if and only if the task is in one of the listed states and its arguments are right; already terminal is the answer exactly to a cancellation of an ended task |
| `TaskOutcomes.ApplyLeadsTo` | internal/domain/task.go:94-264 | the state each operation leads to; an exit completes a task if and only if the code is zero and there is a last message, a lost task is told apart by its origin |
| `TaskOutcomes.ApplyRecords` | internal/domain/task.go:94-264 | what each operation records, and that it changes nothing else |
| `TaskObject.OperationKeeps` | internal/domain/task.go:72-264 | every operation, performed or refused, keeps a task sound, never leads back, leaves a terminal task unchanged in every field, and keeps identity, request, process and adoption |
| `TaskObject.TaskAggregate.RecordProcess` | internal/domain/task.go:110-120 | in place: the object stays what its whole life has made of it, sound, and a recorded process is never replaced |
| `TaskObject.TaskAggregate.RecordExit` | internal/domain/task.go:158-182 | in place: the object is the task after the operation, sound, its state as TaskOutcomes.ApplyLeadsTo says |
| `TaskObject.TaskAggregate.BeginRecovery` | internal/domain/task.go:192-202 | in place: the object stays what its whole life has made of it, sound, with an origin exactly in the recovery lineage |
| `TaskObject.TaskAggregate.FailRecovery` | internal/domain/task.go:212-221 | in place: the object stays what its whole life has made of it, sound, the two ways of losing a task telling the origins apart |
| `TaskObject.TaskAggregate.Adopt` | internal/domain/task.go:223-239 | in place: two successive transitions come to the one operation, never stop between, and keep the object sound |
| `TaskObject.TaskAggregate.ConfirmKilled` | internal/domain/task.go:258-264 | in place: the object stays what its whole life has made of it, sound, and is terminal for good |
| `TaskSnapshots.RestoreWithTask` | internal/domain/tasksnapshot.go:206-269 | what WithTask accepts restores to the same task apart from queue position, if and only if slug and requested timeout are the ones its id and timeout carry |
| `TaskSnapshots.LiveCoherent` | internal/domain/tasksnapshot.go:206-232 | that condition holds for a restored task and through its whole life |
| `TaskSnapshots.SuccessorAccepted` | internal/domain/tasksnapshot.go:108-269 | every legal next state of a launched task validates, is again launched and restores to that task |
| `TaskSnapshots.EveryLifePersists` | internal/domain/tasksnapshot.go:108-269 | saving and restoring after every operation of a life refuses nothing and ends with the task that lived it in memory |
| `TaskSnapshots.UpdatedKeeps` | internal/domain/tasksnapshot.go:234-269 | updating leaves alone all that a task does not carry but the time of the last change |
| `TaskSnapshots.ContradictionsRefused` | internal/domain/tasksnapshot.go:108-204 | a snapshot that contradicts itself is never restored |
| `TerminalWrites.AttemptGuarantees` | internal/execution/cancel.go:78-115 | kill confirmation under every failure pattern: exit code written once, snapshot only with the same code on file |
| `TerminalWrites.FinalizeGuarantees` | internal/execution/finalize.go:139-247 | finalizing with its retry under every failure pattern, including writes that take effect and still report failure; an existing different code leaves everything untouched |
| `TerminalWrites.RetryRejectedAfterLateSave` | internal/execution/finalize.go:175-187 | a save that took effect is not overwritten by the retry |
| `TerminalWrites.FailLaunchGuarantees` | internal/execution/usecase/launchfailure.go:95-155 | launch failure under every failure pattern |
| `TerminalWrites.EveryRunOrdered` | internal/contract/exitcode.go:28-52 | over any mixture of these and other transitions: a stored exit code is backed by the same code on file, a code on file and a terminal snapshot are never replaced |
| `TerminalOutcomes.WriteTerminalOutcome` | internal/execution/finalize.go:220-247 | each outcome of a terminal write if and only if: persisted when the code is or gets on file, the snapshot validates and is saved; fatal on a conflict, an unreadable file or an invalid snapshot; retryable otherwise; and exactly what is on disk then |
| `TerminalOutcomes.AttemptOutcome` | internal/execution/finalize.go:139-173 | for a launched task that accepts the operation: persisted if and only if the code gets on file and the save works, and what is saved restores to the task after the operation |
| `TerminalOutcomes.AttemptRefused` | internal/execution/finalize.go:144-168 | refused, with nothing touched, if and only if the task cannot be loaded or does not accept the operation |
| `TerminalOutcomes.FinalizeOutcome` | internal/execution/finalize.go:139-201 | finalizing a launched task persists if and only if the first attempt works, or leaves the snapshot as it was and the retry works; completed if and only if the first worked, the code is zero and there is a last message, otherwise failed |
| `TerminalOutcomes.ConfirmKillOutcome` | internal/execution/cancel.go:78-115 | a cancelling task is persisted as killed if and only if the code gets on file and the save works |
| `TerminalOutcomes.FailLaunchOutcome` | internal/execution/usecase/launchfailure.go:95-155 | with nothing stored yet, the launch is persisted as failed with its reason if and only if the code gets on file and the save works |
| `TerminalOutcomes.FailPreparedOutcome` | internal/execution/usecase/launchfailure.go:95-155 | so is a task stored when it was admitted or started, the reason kept if the snapshot is of the current schema |
| `TerminalOutcomes.FailLaunchedOutcome` | internal/execution/usecase/launchfailure.go:95-155 | a task whose process is on record cannot be given a reason: then the outcome is fatal, the exit code filed all the same |
| `TaskFiles.Files.WriteExitCodeIdempotently` | internal/contract/exitcode.go:41-52 | writes a missing code, accepts the same, refuses another without touching it |
| `TaskFiles.Files.WriteTerminalState` | internal/execution/finalize.go:220-247 | exit code first, then the snapshot; TerminalOutcomes.WriteTerminalOutcome says which outcome when |
| `TaskFiles.Files.Finalize` | internal/execution/finalize.go:139-201 | the in-place finalize is the specified one and gives the guarantees; TerminalOutcomes.FinalizeOutcome says which outcome when |
| `TaskFiles.Files.ConfirmTaskKilled` | internal/execution/cancel.go:78-115 | the in-place confirmation is the specified one and gives the guarantees |
| `TaskFiles.Files.FailTaskLaunch` | internal/execution/usecase/launchfailure.go:95-155 | the in-place launch failure is the specified one and gives the guarantees |
| `Fingerprint.BeforeMeans` | internal/supervisor/gitops/fingerprint.go:10-25 | strings compare by the first byte in which they differ, a proper beginning first |
| `Fingerprint.LessByField` | internal/supervisor/gitops/fingerprint.go:10-25 | entries compare by the first field in which they differ: scope, status, path, mode, hash |
| `Fingerprint.LessTotal` | internal/supervisor/gitops/fingerprint.go:10-25 | the five-key comparison is a total order |
| `Sorting.SortUnique` | internal/supervisor/gitops/fingerprint.go:10-25 | under a total order any two sorts of the same elements agree |
| `Fingerprint.BigEndianDigit` | internal/supervisor/gitops/gitconfigfp.go:107-112 | each byte of a length is the digit of its place, most significant first |
| `Fingerprint.HeadBytes` | internal/supervisor/gitops/fingerprint.go:26 | the bytes every preimage starts with |
| `Fingerprint.SizedDecodes` | internal/supervisor/gitops/gitconfigfp.go:107-112 | a length-prefixed string can be told from whatever follows it |
| `Fingerprint.FrameDecodes` | internal/supervisor/gitops/gitconfigfp.go:114-122 | framed entry lists are uniquely decodable |
| `Fingerprint.Canonical` | internal/supervisor/gitops/fingerprint.go:8-28 | the bytes hashed for two inputs are equal if and only if the heads are equal and the entries are permutations of each other, whatever sort is used |
| `Fingerprint.EntriesBytes` | internal/supervisor/gitops/gitconfigfp.go:114-122 | the loop builds the framing |
| `Fingerprint.TreePreimage` | internal/supervisor/gitops/fingerprint.go:8-28 | the bytes computed characterize the input up to order of entries |
| `Eviction.MakePlan` | internal/store/taskplacementstore.go:101-184 | the candidates are exactly the shortest prefix of the eligible tasks, ordered by creation and id, that holds all expired ones and reaches the budget or exhausts the list; projected bytes are current minus chosen, never negative, and -1 exactly when something could not be measured; invalid policies and overflow exactly characterized |
| `Eviction.EligibleExact` | internal/store/taskplacementstore.go:246-250 | the eligible tasks are exactly those measured, ended and not created in the future, each once and in order, with its own size, age and expiry |
| `Eviction.CurrentIsSum` | internal/store/taskplacementstore.go:138-150 | the running total is the sum of all sizes, or unknown if one is |
| `Eviction.EarlierMeans` | internal/store/taskplacementstore.go:159-164 | the older one first, of the same age the one with the smaller identifier |
| `Eviction.Measure` | internal/store/taskplacementstore.go:130-158 | the running total, its sticky unknown value and its overflow test |
| `Eviction.TakeExpired` | internal/store/taskplacementstore.go:165-173 | the first pass takes exactly the expired prefix |
| `Eviction.TakeForBudget` | internal/store/taskplacementstore.go:174-181 | the second pass stops at the first point within budget |
| `Eviction.OrderedExpiredFirst` | internal/store/taskplacementstore.go:246-250 | in order of age the expired candidates come first, whatever the threshold |
| `Eviction.RetentionExact` | internal/store/taskplacementstore.go:246-250 | a task counts as expired exactly from the retention period on, for all creation times, if and only if the period fits in 64 bits of nanoseconds |
| `Eviction.RetentionWraps` | internal/store/taskplacementstore.go:250 | with 106752 days it does not fit, and a task created this instant counts as expired |
| `Eviction.EarlierWeak` | internal/store/taskplacementstore.go:159-164 | the comparison is a strict weak order |
| `LogScan.LastSequence` | internal/supervisor/store/event_store.go:499-536 | for every content and chunk size the backward scan returns the sequence number of the last non-empty line that decodes, 0 if none, of the bytes seen: those of the file, but where a read was cut short by the end of a file that has shrunk; it fails only if a read fails |
| `LogScan.ReadAt` | internal/supervisor/store/event_store.go:513-515 | a read cut short is accepted and leaves the rest of the buffer as it was |
| `LogScan.ReverseBytes` | internal/supervisor/store/event_store.go:538-543 | the in-place swap loop reverses |
| `LogScan.ReadByte` | internal/supervisor/store/event_store.go:516-526 | what is left to find, one byte further back |
| `LogScan.ScanChunk` | internal/supervisor/store/event_store.go:516-526 | the inner loop over one chunk |
| `TextLines.LinesSplit` | internal/supervisor/store/event_store.go:517-525 | a newline splits off everything after it as further lines |
| `LineFraming.FeedWorks` | internal/transport/line_writer.go:34-69 | one write from any unfinished line: what goes out, what stays pending, what is reported |
| `LineFraming.FeedAccounts` | internal/transport/line_writer.go:38-68 | the bytes reported as taken are those that went out in whole frames and those left pending, on success and on either error; after a failed output a part of the pending line may be out as well |
| `LineFraming.WriteAllReaches` | internal/transport/line_writer.go:34-80 | any split into writes comes to the same as the whole stream |
| `LineFraming.ErrorSticks` | internal/transport/line_writer.go:35-37 | after any error nothing is ever written again |
| `LineFraming.NothingWrongGetsOut` | internal/transport/line_writer.go:71-80 | however the connection fails, what got out is a prefix of the right output |
| `LineFraming.RoundTrip` | internal/transport/line_writer.go:34-80 | over a reliable connection the reader gets exactly the complete lines and the writer keeps the unfinished one; a too long line is reported and never partly emitted |
| `LineFraming.WholeExact` | internal/transport/line_writer.go:46-49 | a stream is refused if and only if one of its lines is longer than a mebibyte, and what is passed on reads back as the complete lines before it |
| `LineFraming.SplitStable` | internal/transport/server.go:287-297 | more data never changes a token already found |
| `LineFraming.JsonLineSplit` | internal/transport/server.go:287-297 | the search loop finds the first line, asks for more, or reports an unterminated rest |
| `LineFraming.ProtocolLineWriter.WriteFrame` | internal/transport/line_writer.go:71-80 | a frame is taken whole or an error is reported |
| `LineFraming.ProtocolLineWriter.Write` | internal/transport/line_writer.go:34-69 | the in-place loop is the specified write |
| `PathLocks.Overlaps` | internal/domain/pathlock.go:23-37 | true exactly when the two locks share a path |
| `PathLocks.Acquire` | internal/domain/pathlock.go:40-48 | granted exactly when no active lock shares a path |
| `PathLocks.FindConflict` | internal/execution/pathlock.go:238-249 | finds a requested path really owned by the named lock, exactly when there is one |
| `PathLocks.ClassifyOutcome` | internal/execution/pathlock.go:127-153 | a lock is stale if and only if its task's own lock can be taken, or has no file and the task is gone or past its launch; what cannot be told is neither stale nor alive |
| `PathLocks.NextOk` | internal/execution/pathlock.go:104-197 | every step, releases without the mutex and failures included, keeps locks of different tasks disjoint and every reported conflict real |
| `PathLocks.EveryRunOk` | internal/execution/pathlock.go:104-376 | across every interleaving locks of different tasks stay pairwise disjoint, and each reported conflict names a requested path owned, when the store was listed, by the named task, judged alive |
| `PathLockTable.LockTable.Execute` | internal/execution/pathlock.go:104-197 | one acquisition in place, with others releasing before every access to the store: what happened is a run of the protocol, locks are exclusive after it, success means the lock is stored, and a conflict told to the caller is real; undisturbed, it is granted if and only if every listed lock can be judged, the request and the locks left are normalized, no living lock shares a path and the save works, and the store is then the old one without the stale locks and with the new |
| `PathLockTable.Sort` | internal/execution/pathlock.go:125-153 | sorts listed locks into living and stale, failing closed on one that cannot be judged |
| `PathLockTable.ValidateStored` | internal/execution/pathlock.go:226-236 | accepts exactly if all stored paths are normalized |

## Left out

- The width table of runes (`internal/supervisor/textpolicy`): an uninterpreted function into 0, 1 and 2.
- Path normalization and the slug in a task id: uninterpreted functions, used only for what they accept.
- JSON: decoding a log line is an arbitrary partial function; encoding is not modelled.
- SHA-256: results are about the bytes hashed.
- `Cells` and `CursorPos` of the terminal: plain accessors.
- Tokens and generations are unbounded; the code's 64-bit counters would wrap after 2^64 grants.
- Terminal sizes and parameter sums are unbounded integers; parameters themselves stop at 65535.
- `sort.Slice`: any result that is sorted and a permutation; the one computed here is an insertion sort.
- Events returned or appended by operations, log lines, metrics: they do not feed back into any decision.
- `RecoverViaResumeUseCase.finish` and the resolution of recovering tasks at adoption: they write in another
  order and are not part of the write-ordering results, which exclude completing a recovery.
- Signals sent outside the termination ensurer (the daemon's own terminator, the resume launcher).
- The initial send of the cancel use case and of timeout enforcement: in `Senders` they are among the other
  parties that may claim and settle, not among the senders shown to settle.
- The registry's `Reset` at adoption: runs start from an empty registry.
- The queue's `Remove` and `Restore` inside scheduler runs: proved inverse to each other, not interleaved. Nor
  does a queued task leave the queued state inside a run; what an advance does then is stated for one call.
- The panics of queue methods given a task that is not queued, or an index out of range: preconditions.
- `GitConfigFingerprintFromEntries` and the parsing of git configuration.
- Executing an eviction plan, measuring directories, probing task locks: file system calls.
- The scanner's buffer limit, request dispatch and validation in `internal/transport/server.go`.
- Session handling, send gates and push policy of the supervisor; `cmd/`, configuration, PTY and process
  start-up: large case tables or input and output without a hard property of their own.

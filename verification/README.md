# Proofs about the emulator's audio log, MCP bridge and tools

This project models the parts of the repository that keep state over long runs
or transform data and back, and proves what they are for. Code that changes
state in place is modelled by classes and methods with loops; each of them is
proved against functions on values, and the properties are proved about those
functions over all inputs and all runs.

| part of the repository | modules |
|---|---|
| audio event log (`src/emulator/audio.c`) with the PSG it steps (`src/emulator/hw-generic/psg/psg.c`) | `SourceLogs`, `Psg`, `PsgSound`, `AudioMachine`, `AudioLaziness`, `AudioHistory`, `AudioRuns`, `AudioSound`, `AudioUnsafeCuts`, `AudioLog` |
| its part of a snapshot (`src/emulator/snapshot/handlers/snap_audio.c`) | `AudioSnapshot` |
| request side of the MCP bridge (`mcp-server/mcp_server.py`) | `McpBridge`, `McpBridgeRuns`, `McpBridgeSafety`, `McpBridgeReconnect`, `McpBridgeRace`, `McpBridgeOrder`, `McpBridgeExamples`, `McpBridgeAnswers`, `McpBridgeNotices`, `McpBridgeReports`, `McpBridgeSessions` |
| PO files (`tools/i18n_translate.py`) | `PoStrings`, `PoFile`, `PoRoundTrip`, `PoReading`, `PoLayout` |
| recording export (`docs/tools/videorec_export.py`) | `StateTimeline`, `OverlayWindows`, `VideoPlan`, `VideoParts` |
| notes from PSG writes (`docs/tools/example_psg_write_log_to_midi.py`) | `NoteRuns`, `WriteDecoder`, `RegisterBytes`, `NoteExtraction`, `NoteResults`, `HeardNotes` |
| sound analysis (`src/emulator/audio_analysis.c`, notes of a capture in `src/emulator/mcp/dispatch.c`) | `NoteTracker`, `CapturedNotes`, `CapturedSound`, `SoundSpans`, `Resample`, `LagSearch` |
| recently used directories (`src/baseui/baseui_fchooser_lastdir.c`) | `RecentDirs`, `LastDirs` |

`Basics` holds the few definitions that several modules share.

`dafny verify dfyconfig.toml` checks the whole project.

## Where the code does less than it means to

Seven properties are not met by the code in every case. For each the exact
condition is proved, and a run or an input in which it fails.

- The cut at the end of a frame. The backward walk assigns `event_timestamp`
  only inside its loop, so it stays 0 when the event that spans the cut is the
  first one of the log. The cut conserves the history of CTC0 if and only if
  CTC0 did not change in the frame, or its first change is not past the last PSG
  grid point, or that change is at a multiple of 2^32 ticks
  (`SourceLogs.CarriedIffSafe`, `AudioHistory.CutConservesIff`). No later
  operation repairs an unsafe cut: over a whole run the logs are what was
  written if and only if every cut was safe
  (`AudioUnsafeCuts.LogsAreTheHistoryIff`). With the stamp assigned in every case
  the cut is always right (`SourceLogs.CarriedMoves`);
  `AudioUnsafeCuts.UnsafeCutLosesTheWave` shows the ordinary frames in which it is
  not.
- Discarded replies of the bridge. The reader task puts replies into the global
  queue, and a request reads the global queue again before each wait, so a
  reconnect can make one call discard a reply that another still waits for
  (`McpBridgeExamples.LiveReplyCanBeDiscarded`). A reconnect is harmless while no
  call stands in line for the old lock or is inside the `drain` of its request,
  and no waiting call has its reply unread on a connection or a late reply at
  the head of its queue. If all reconnects are harmless only late replies are
  discarded (`McpBridgeReconnect.OnlyLateRepliesAreDiscarded`); and a step is
  harmless if and only if no run with harmless reconnects after it loses a reply
  (`McpBridgeRace.HarmlessIffNothingIsLost`).
- Late replies of a backend that was replaced. In runs with harmless reconnects
  a call that holds the lock discards at most what was on the way
  (`McpBridgeOrder.StreamHealsItself`), but after a reply is accepted exactly the
  strays of replaced connections can still arrive, all of them older; nothing
  can, if and only if those connections had been drained
  (`McpBridgeOrder.AcceptanceLeavesOnlyStrays`).
  `McpBridgeExamples.AcceptanceCanLeaveAStray` is a run in which one is left.
- Quoting for PO files. A string survives quoting and unquoting if and only if
  it has no backslash directly followed by n or t (`PoStrings.RoundTripIff`), and
  a saved file is read back unchanged if and only if this holds of all its
  strings (`PoRoundTrip.SaveThenParseIff`).
- Transitions of an exported video. The check of `plan_timeline` looks at one
  segment only; a crossfade after a cut may be longer than the segment after
  that cut and then run at the same time as the transition before
  (`VideoPlan.AcceptedPlanCanOverlap`). An accepted plan has no overlap if and
  only if every crossfade has enough footage since the transition before it
  (`VideoPlan.NoOverlapIffRoomy`).
- Indicator windows. Three printed decimals separate all frames if and only if
  the video has fewer than 1000 frames per second
  (`OverlayWindows.BoundaryIsExactIff`).
- The register decoder of the MIDI example calls itself the same as the one of
  `psg.c`. They agree on a write if and only if it is not a tone divider byte
  with bit 6 set (`WriteDecoder.DecodersAgreeIff`).

## Model

| member | source | states |
|---|---|---|
| SourceLogs.ChangedDescribes | src/emulator/audio.c:267-309 | a change written to a run-length log is exactly the abstract write: nothing for the current value, otherwise one more change at its tick |
| SourceLogs.StartsOfSpelling | src/emulator/audio.c:267-309 | reading the tick counts back gives the changes at their own ticks, although counts are truncated to 32 bits |
| SourceLogs.DecodeIsWave | src/emulator/audio.c:267-309 | decoding the run lengths gives, at every tick, the value last written at or before it |
| SourceLogs.CountsSpanTheLog | src/emulator/audio.c:267-309 | the closed counts of a live log sum to the distance from its start to its last change |
| SourceLogs.ClosedFillsTheFrame | src/emulator/audio.c:397-406 | after the frame is closed the counts of a source sum to the frame length |
| SourceLogs.WalkFinds | src/emulator/audio.c:421-435 | the backward walk stops at the last event that has started by the cut and leaves the ticks of it that lie past the cut |
| SourceLogs.KeptIsPrefix | src/emulator/audio.c:441-453 | the finished log keeps exactly the changes up to the cut |
| SourceLogs.CarriedIffSafe | src/emulator/audio.c:414-454 | the next log holds the changes past the cut at their own ticks if and only if the cut is safe |
| SourceLogs.CarriedMoves | src/emulator/audio.c:423-450 | with the stamp the walk means to assign, every cut carries the changes over unmoved; above index 0 it is the stamp assigned |
| SourceLogs.UnstampedMoves | src/emulator/audio.c:423-450 | with the stamp left at 0 all carried changes are moved by the tick of the first of them |
| SourceLogs.ReadBackIffSafe | src/emulator/audio.c:414-454 | a reader of the next log finds the changes past the cut if and only if the cut is safe |
| Psg.SilentWriteCommutes | src/emulator/hw-generic/psg/psg.c:243-300 | a register write that skips the fill commutes with every generator step and changes no level |
| PsgSound.FillsIffAudible | src/emulator/hw-generic/psg/psg.c:243-300 | the log is filled before a write if and only if the write changes a register that a generator uses |
| PsgSound.LevelIsLoudness | src/emulator/audio.c:347-356 | with a high output the logged level and the attenuation add up to 15, with a low output the level is 0 |
| PsgSound.ModuleSteps | src/emulator/hw-generic/psg/psg.c:378-450 | the channels step on their own; only the noise may follow the divider of channel 2, and chip 1 stands still in mono |
| PsgSound.ToneIsSquareWave | src/emulator/hw-generic/psg/psg.c:388-398 | a tone keeps its output until its timer has run down, toggles, and stays so for exactly its divider of steps |
| PsgSound.TonePeriod | src/emulator/hw-generic/psg/psg.c:388-398 | after twice its divider of steps a tone is where it was |
| PsgSound.ToneOutput | src/emulator/hw-generic/psg/psg.c:388-398 | the output of a tone at any step, from its timer, divider and output |
| PsgSound.DegenerateToneIsHigh | src/emulator/hw-generic/psg/psg.c:390-393 | a tone with a divider below 2 stands high |
| PsgSound.NoiseShiftsPeriodically | src/emulator/hw-generic/psg/psg.c:402-439 | the noise shifts once in 16, 32 or 64 steps or in the divider of tone 2, and its output is the low bit |
| PsgSound.DegenerateNoiseIsHigh | src/emulator/hw-generic/psg/psg.c:405-408 | following a tone with a divider below 2 the noise stands high |
| PsgSound.ShiftRegister | src/emulator/hw-generic/psg/psg.c:420-437 | one shift of the register, bit by bit: 16 bits, fed with bit 0, or with bits 0 and 3 for white noise |
| PsgSound.ShiftRestarts | src/emulator/hw-generic/psg/psg.c:422-426 | a change of the noise type restarts the register with its top bit alone |
| AudioLaziness.PhaseBelowDivider | src/emulator/audio.c:330-378 | after a fill the phase is below PSG_DIVIDER and the grid has moved by whole steps |
| AudioLaziness.RunStaysOnGrid | src/emulator/audio.c:323-482 | over any run and any number of frames the grid moves by whole dividers from where it was, and after a last fill or frame end the phase is below PSG_DIVIDER |
| AudioSnapshot.SnapshotContinues | src/emulator/snapshot/handlers/snap_audio.c:35-90 | after any operations the machine loaded from a snapshot has the PSG state, and the next PSG step at the tick, of the machine that went on without a load |
| AudioSnapshot.GridIsKeptIff | src/emulator/snapshot/handlers/snap_audio.c:77-90 | a load with another phase, as the 0 of an old snapshot, keeps the grid if and only if the phases differ by whole dividers |
| AudioLaziness.FillsCompose | src/emulator/audio.c:330-378 | two fills are one fill at the later time |
| AudioLaziness.OpAfterFill | src/emulator/audio.c:323-378 | an operation and a fill before it give what the operation alone gives once filled: PSG, grid, current and finished logs |
| AudioLaziness.LazyIsEager | src/emulator/audio.c:323-482 | over any run the lazily stepped machine equals the one stepped before every operation |
| AudioLaziness.ExtraFillsAreInvisible | src/emulator/audio.c:330-378 | additional fills anywhere in a run change nothing |
| AudioHistory.FillConserves | src/emulator/audio.c:330-378 | a fill keeps finished and current logs equal to the written history, with the levels it writes |
| AudioHistory.CutConservesIff | src/emulator/audio.c:380-482 | a frame cut conserves the history of every source if and only if its guard holds |
| AudioHistory.OperationConservesIff | src/emulator/audio.c:323-482 | every operation conserves the history, the end of a frame exactly under its guard |
| AudioRuns.FinishedPlays | src/emulator/audio.c:380-454 | a finished log plays the history up to its cut whether or not the cut is safe |
| AudioRuns.RunConserves | src/emulator/audio.c:267-482 | over any orderly run the logs stay the written history and play it |
| AudioRuns.LogsAreTheHistory | src/emulator/audio.c:267-482 | from a new log, over any number of frame cuts, every source decodes at every tick to the value last written, and the changes in the logs are the changes written, none lost, doubled or moved |
| AudioSound.FillSteps | src/emulator/audio.c:330-378 | a fill steps the chips once for each whole PSG_DIVIDER up to its time |
| AudioSound.FillLogs | src/emulator/audio.c:343-372 | after a fill that moved the grid every driven source ends with 15 less the attenuation of its channel, or with 0 |
| AudioSound.FillLeaves | src/emulator/audio.c:330-372 | a fill changes neither CTC0 nor, in mono, the second chip; without a PSG only the grid moves |
| AudioSound.WriteReaches | src/emulator/hw-generic/psg/psg.c:302-363 | in mono a byte goes to chip 0 alone whatever its mask, in stereo to the chips of its mask; the others only step |
| AudioSound.GeneratorsAreHeard | src/emulator/audio.c:330-378 | between two grid points a reader of the logs finds, at every tick, the loudness of the channel after as many steps as dividers have begun |
| AudioSound.ToneIsHeard | src/emulator/audio.c:330-378 | a tone is heard in the logs as its square wave between 15 less its attenuation and silence |
| AudioSound.HeardForGood | src/emulator/audio.c:267-482 | what has been heard of a PSG source stays, whatever operations and frame cuts follow |
| AudioSound.RunIsHeard | src/emulator/audio.c:267-482 | from a new log, after any orderly run and a fill, the logs play between the two grid points what the chips generate there, then and after any orderly run that follows |
| AudioUnsafeCuts.UnsafeCutLosesTheWave | src/emulator/audio.c:423-450 | any frame from tick 0 in which CTC0 first rises after the last PSG step: the next log plays 0 where the output is 15 |
| AudioUnsafeCuts.LogsAreTheHistoryIff | src/emulator/audio.c:267-482 | over a whole run the logs give back what was written to every source if and only if every cut was safe; a later operation repairs nothing |
| AudioLog.SourceLog.Changed | src/emulator/audio.c:267-309 | the in-place append gives the source of the specification |
| AudioLog.SourceLog.FindSplit | src/emulator/audio.c:421-435 | the walk finds the event that spans the cut and the stamp, which stays 0 at index 0 |
| AudioLog.SourceLog.MoveTo | src/emulator/audio.c:414-454 | moving the events past the cut leaves the kept part here and the carried part in the next log |
| AudioLog.Audio.Ctc0Changed | src/emulator/audio.c:323-328 | the live change and the output flag |
| AudioLog.Audio.LogChannels | src/emulator/audio.c:343-372 | one scan logs every driven channel at the grid point and no other, and leaves in its source 15 less the attenuation, or 0 |
| AudioLog.Audio.FillPsg | src/emulator/audio.c:330-378 | the loop over the grid gives the filled machine |
| AudioLog.Audio.WriteChip | src/emulator/hw-generic/psg/psg.c:243-300 | a register write steps the chip first exactly when something audible changes |
| AudioLog.Audio.WriteByte | src/emulator/hw-generic/psg/psg.c:302-363 | the write of a port: chip 0 in mono, the chips of the mask in stereo |
| AudioLog.Audio.CutFrame | src/emulator/audio.c:395-461 | closing, cutting and copying give the finished log and the next log |
| AudioLog.Audio.FinishFrame | src/emulator/audio.c:380-482 | the end of a frame hands the finished log over and goes on with the next one |
| McpBridgeSafety.NextSound | mcp-server/mcp_server.py:869-1147 | every step keeps all requests, replies and waits tied to the call that issued the id |
| McpBridgeSafety.AnswersAreOwn | mcp-server/mcp_server.py:1095-1147 | in any run, with any reconnects, a call returns the answer to its own request, and no two calls the same one |
| McpBridgeAnswers.HeadIsTaken | mcp-server/mcp_server.py:1123-1147 | a reply with the awaited id at the head of the queue is what the call returns, unchanged; another is discarded and the wait goes on; a sentinel ends it with an error |
| McpBridgeAnswers.RequestIsAnswered | mcp-server/mcp_server.py:1095-1147 | after any run with harmless reconnects, if the request of a waiting call, or its reply, is in its live connection, a run of backend, reader and this call ends with the reply returned: with the id and the command of the request and the body the backend gave |
| McpBridgeSessions.CallIsAnswered | mcp-server/mcp_server.py:1060-1147 | after any run with harmless reconnects a new call on a live backend whose lock is free can be carried through to the backend's answer to its own request |
| McpBridgeSessions.AgainIsAnswered | mcp-server/mcp_server.py:1060-1147 | so can a further request of a call that has its answer or has failed |
| McpBridgeSessions.GivingUpFreesTheLock | mcp-server/mcp_server.py:1113-1128 | a wait that is given up ends with an error and gives the lock back, and nothing else changes |
| McpBridgeSessions.NextCallIsAnswered | mcp-server/mcp_server.py:1104-1147 | after a timeout the next call can be answered with its own reply, although the late one is in front of it |
| McpBridgeSessions.EndOfBackendEndsTheWait | mcp-server/mcp_server.py:882-918 | when the reader ends, a waiting call without a reply in its queue reaches the sentinel and fails, without waiting for its timeout |
| McpBridgeReconnect.NextTidy | mcp-server/mcp_server.py:957-1147 | a step that is no reconnect, or a harmless one, keeps every request on the connection of its lock and queue, one holder for each lock, and the request of the current lock the newest |
| McpBridgeReconnect.OnlyLateRepliesAreDiscarded | mcp-server/mcp_server.py:1104-1147 | after any run with harmless reconnects a discarded reply is older than the request waited for, and nobody waits for it any more |
| McpBridgeRace.HarmlessIffNothingIsLost | mcp-server/mcp_server.py:957-1147 | the guard is exact: a step is harmless if and only if no continuation with harmless reconnects discards a reply that a call still waits for |
| McpBridgeRace.QueuedLoses | mcp-server/mcp_server.py:1095-1105 | a call in line for the old lock sends on the new connection, and then takes the reply of another |
| McpBridgeRace.SendingLoses | mcp-server/mcp_server.py:1105-1124 | so does a call that is replaced under between its write and its wait |
| McpBridgeRace.StaleHeadLoses | mcp-server/mcp_server.py:1123-1147 | so does a call that discards a late reply and looks the queue up again |
| McpBridgeRace.UnreadReplyLoses | mcp-server/mcp_server.py:868-870 | a reply unread at the reconnect lands in the queue of another call |
| McpBridgeOrder.RepliesArePaidFor | mcp-server/mcp_server.py:868-1147 | in any run with any reconnects, the replies taken and those on their way in any connection are at most the requests sent |
| McpBridgeOrder.StreamHealsItself | mcp-server/mcp_server.py:1095-1147 | while a call holds the current lock nothing is sent, and it takes no more replies than what is on the way shrinks by |
| McpBridgeOrder.NextInOrder | mcp-server/mcp_server.py:868-1147 | in every step the requests of a connection stay in the order they were sent, through answers, lines and queues |
| McpBridgeOrder.AcceptanceLeavesOnlyStrays | mcp-server/mcp_server.py:1104-1147 | an acceptance leaves nothing of its own connection there; on the current one exactly the older replies of replaced connections can still arrive, none if and only if those were drained |
| McpBridgeExamples.LiveReplyCanBeDiscarded | mcp-server/mcp_server.py:868-879 | a run with a reconnect during a wait in which a reply that is still waited for is discarded |
| McpBridgeExamples.AcceptanceCanLeaveAStray | mcp-server/mcp_server.py:868-879 | a run with harmless reconnects in which an acceptance leaves the late reply of a replaced backend in the queue |
| McpBridgeNotices.NextProper | mcp-server/mcp_server.py:388-476 | every step keeps each notice in one place only: a holder, the global variable, or delivered |
| McpBridgeNotices.NoticesAreOwnAndOnce | mcp-server/mcp_server.py:1062-1089 | in any run a notice made for a tool call is returned by that call only, none twice, and none is about a requested end |
| McpBridgeNotices.PendingNoticeIsOfARead | mcp-server/mcp_server.py:388-406 | the notice in the global variable was made by a resource read and has not been delivered |
| McpBridgeNotices.PendingNoticeStays | mcp-server/mcp_server.py:402-406 | a pending global notice stays, also when a call delivers its own, until it is delivered, replaced by that of a later resource read, or forgotten by emu_start |
| McpBridgeReports.CheckFindsTheLoss | mcp-server/mcp_server.py:1062-1070 | a connection check finds an unrequested end of the backend, with the reason the reader left or the one the transport gives |
| McpBridgeReports.ToolReportsTheLoss | mcp-server/mcp_server.py:1071-1089 | a tool call that has reconnected after a loss returns, when it delivers, its own notice of that loss |
| McpBridgeReports.NextToolReportsTheLoss | mcp-server/mcp_server.py:388-406 | after a resource read has reconnected, the next delivery of a tool call without a notice of its own returns the notice of that loss, and it is gone |
| McpBridgeReports.StopIsNeverReported | mcp-server/mcp_server.py:1062-1070 | once emu_stop has announced the end of a backend no call ever returns a notice about it |
| McpBridgeReports.StopIsNoLoss | mcp-server/mcp_server.py:1062-1070 | after emu_stop has dropped the transport the next call starts a backend of its own and has no loss to report |
| McpBridgeReports.StartForgets | mcp-server/mcp_server.py:388-406 | after emu_start there is a backend and no pending notice |
| McpBridgeReports.NextReasonIsAsked | mcp-server/mcp_server.py:1062-1089 | the reason of an end is used up by its notice; a later check asks the transport again, unless another reader has ended since |
| McpBridgeReports.DeliversOnce | mcp-server/mcp_server.py:388-476 | a call has one result: in any run after it nothing more is delivered to it or sent for it |
| McpBridgeSessions.CrashIsReported | mcp-server/mcp_server.py:1060-1147 | from any state after a harmless run in which the backend has crashed and no other call is under way, a tool call can reconnect, is answered by the new backend and returns the notice of exactly that crash |
| PoStrings.EscapeIsPerChar | tools/i18n_translate.py:186-190 | the three escaping replacements amount to escaping each character once |
| PoStrings.QuoteThenUnquote | tools/i18n_translate.py:173-203 | quoting and unquoting gives the string with exactly the misread letters replaced |
| PoStrings.GarbledAt | tools/i18n_translate.py:173-203 | which characters those are: an n or t right after an unconsumed backslash, and nothing else changes |
| PoStrings.RoundTripIff | tools/i18n_translate.py:173-203 | a string survives if and only if it has no backslash directly followed by n or t |
| PoFile.Quote | tools/i18n_translate.py:186-203 | the line-building loop gives the quoted lines |
| PoFile.PoDocument.Parse | tools/i18n_translate.py:90-145 | the parser fills header and entries as the specification does |
| PoFile.PoDocument.Save | tools/i18n_translate.py:147-170 | the writer produces the text of the specification |
| PoFile.SaveEntry | tools/i18n_translate.py:154-170 | one entry as its terminated lines |
| PoFile.BlocksOfBody | tools/i18n_translate.py:97 | splitting at blank lines gives back exactly the blocks written |
| PoFile.SplitJoined | tools/i18n_translate.py:101 | splitting a block gives back its lines |
| PoRoundTrip.FlagsSplit | tools/i18n_translate.py:106-108 | flags without the separator are split as they were joined |
| PoRoundTrip.ReadKeyed | tools/i18n_translate.py:120-136 | a keyword with its quoted lines is read as the unquoted string |
| PoRoundTrip.EntrySolid | tools/i18n_translate.py:154-170 | no content of an entry can end a line or its block |
| PoRoundTrip.ParseOfSave | tools/i18n_translate.py:90-170 | what reading a saved file gives, exactly, for every list of entries |
| PoRoundTrip.HeaderOfSave | tools/i18n_translate.py:206-221 | the header of a saved file is read back as its fields, each on a line of its own |
| PoRoundTrip.SaveThenParseIff | tools/i18n_translate.py:90-170 | the entries come back unchanged if and only if none of their strings has a backslash followed by n or t |
| PoReading.LineEndingsDoNotMatter | tools/i18n_translate.py:93-97 | a file is read alike with LF, CR LF and CR at the ends of its lines |
| PoReading.StripTrims | tools/i18n_translate.py:97 | space around the text is dropped, all of it and nothing else |
| PoReading.BlankLinesSeparate | tools/i18n_translate.py:97 | blocks may be any number of blank lines apart |
| PoReading.ReadComments | tools/i18n_translate.py:115-118 | comment lines are kept in their order |
| PoReading.EntriesAreNamed | tools/i18n_translate.py:138-143 | a file has exactly the entries of the blocks with a msgid and without an obsolete line, in their order |
| PoLayout.OneLineForEach | tools/i18n_translate.py:186-203 | a string of one line is quoted on one line; any other starts with an empty quoted line and has one for each of its lines, none for an empty last one |
| PoLayout.EntryInOrder | tools/i18n_translate.py:154-170 | the lines of an entry come in the order of the format: comments, references, flags, context, source, translation |
| StateTimeline.FoldIsStateAt | docs/tools/videorec_export.py:427-465 | folding the sorted events up to a frame gives, field by field, the last event that sets it, stable for equal frames |
| StateTimeline.LatestIsLatest | docs/tools/videorec_export.py:427-465 | the event that counts for a field is the one with the greatest frame, the last of the file among equals |
| StateTimeline.StateTimeline | docs/tools/videorec_export.py:427-465 | the intervals are nonempty, contiguous, cover exactly [0, total), have no equal neighbours, and every frame has its state |
| StateTimeline.FrameHasInterval | docs/tools/videorec_export.py:427-465 | every frame is in one interval, and only one |
| StateTimeline.OverlayIntervals | docs/tools/videorec_export.py:468-494 | the overlays are ordered, disjoint and merged, and a frame carries an indicator exactly when its state has one |
| StateTimeline.MarkShows | docs/tools/videorec_export.py:468-494 | the icon is that of the pause; the text is there in real time only, with the caption behind it if there is one |
| StateTimeline.OverlaysShowTheState | docs/tools/videorec_export.py:468-494 | an overlay covers a frame if and only if the emulator is paused or in real time there, and shows which |
| OverlayWindows.BoundaryIsExactIff | docs/tools/videorec_export.py:552-553 | a boundary printed with three decimals has every frame on its right side if and only if there are fewer than 1000 frames per second |
| OverlayWindows.OverlayFilters | docs/tools/videorec_export.py:533-553 | at the time of each segment frame exactly the filters of that frame's indicators are on |
| OverlayWindows.SegmentOverlays | docs/tools/videorec_export.py:632-653 | from the events to the windows: each frame of a segment is drawn with the indicator of its state and no other |
| VideoPlan.LengthInClosedForm | docs/tools/videorec_export.py:329-339 | the length is all the footage, less D for every crossfade, plus two seconds for every card |
| VideoPlan.ChosenTransition | docs/tools/videorec_export.py:323-328 | the option goes before the name in the segment, and that before the default; the names mean these transitions; the first segment has none |
| VideoPlan.CutsKeepTheTime | docs/tools/videorec_export.py:312-341 | segments that follow each other with cuts and fades last exactly as long as their frames |
| VideoPlan.FadeTimeFits | docs/tools/videorec_export.py:657-662 | a fade is as long as both the transition and the segment allow |
| VideoPlan.Place | docs/tools/videorec_export.py:314-341 | one segment: accepted exactly when it passes the checks, placed where the video so far ends |
| VideoPlan.PlanTimeline | docs/tools/videorec_export.py:298-350 | accepts exactly the lists that pass every check, with every out_start and the total as in the joined video; otherwise names the first fault |
| VideoPlan.TwoSegments | docs/tools/videorec_export.py:312-349 | two segments are accepted exactly when they have a length and the transition is known and, if a crossfade, no longer than either |
| VideoPlan.LongSegmentsAreAccepted | docs/tools/videorec_export.py:312-349 | segments of at least twice the transition are accepted, however they are joined |
| VideoPlan.JoinSegments | docs/tools/videorec_export.py:670-699 | the joining loop puts each crossfade at the out_start of the plan and ends at its total |
| VideoPlan.TransitionsAreInside | docs/tools/videorec_export.py:329-349 | accepted transitions run inside the video |
| VideoPlan.NeighboursIff | docs/tools/videorec_export.py:329-349 | two transitions with only cuts between them overlap exactly when the second is a crossfade without footage for both |
| VideoPlan.NoOverlapIffRoomy | docs/tools/videorec_export.py:298-350 | no two transitions of an accepted plan run at the same time if and only if each crossfade has footage enough since the one before |
| VideoPlan.AcceptedPlanCanOverlap | docs/tools/videorec_export.py:329-349 | an accepted plan in which a fade and a crossfade overlap |
| VideoParts.UsedParts | docs/tools/videorec_export.py:255-272 | keeps exactly the parts with frames, in order |
| VideoParts.GaplessUpTo | docs/tools/videorec_export.py:255-272 | the list is itself a recording without empty parts, and each of its parts ends where it ends in the original |
| VideoParts.PartsKeepTheirPlace | docs/tools/videorec_export.py:255-272 | in the concatenation of the list each part begins after exactly as many frames as its own first frame number, and all together give the total |
| VideoParts.FrameKeepsItsNumber | docs/tools/videorec_export.py:255-272 | every frame is in exactly one part of the list, at the place in the joined video that is its number |
| WriteDecoder.PsgInstance.WriteByte | docs/tools/example_psg_write_log_to_midi.py:113-146 | the in-place decoder gives the registers of the specification |
| WriteDecoder.DecodersAgreeIff | docs/tools/example_psg_write_log_to_midi.py:113-146 | one write keeps the copy equal to the emulated chip if and only if it is not a divider byte with bit 6 set |
| WriteDecoder.DecodersAgreeOverRuns | docs/tools/example_psg_write_log_to_midi.py:113-146 | over any writes without such a byte the copy follows the chip |
| RegisterBytes.RegistersFromBytes | docs/tools/example_psg_write_log_to_midi.py:113-146 | the registers after any bytes, from the bytes: the attenuation last written, and the divider put together from the last latch and data bytes |
| NoteRuns.RunsExactly | docs/tools/example_psg_write_log_to_midi.py:288-301 | the scan lists exactly the maximal runs of one pitch |
| NoteRuns.RunsInOrder | docs/tools/example_psg_write_log_to_midi.py:288-301 | in order, each run over before the next begins |
| NoteExtraction.Extractor.EmitClose | docs/tools/example_psg_write_log_to_midi.py:312-318 | the open note is removed, and noted when it has a length |
| NoteExtraction.Extractor.MaybeStart | docs/tools/example_psg_write_log_to_midi.py:320-339 | a playing channel gets an open note, a silent one does not |
| NoteExtraction.Extractor.Follow | docs/tools/example_psg_write_log_to_midi.py:362-382 | after a write a note ends when the channel falls silent or changes pitch, and a new one starts where it plays |
| NoteExtraction.Extractor.Take | docs/tools/example_psg_write_log_to_midi.py:341-382 | one write keeps, for every channel, active exactly while playing and noted exactly the runs so far |
| NoteExtraction.ActiveIffPlaying | docs/tools/example_psg_write_log_to_midi.py:341-382 | a key is active if and only if its channel is playing |
| NoteExtraction.SortedKeepsMembers | docs/tools/example_psg_write_log_to_midi.py:388 | the stable sort leaves the notes of each channel as they were |
| NoteResults.ExtractNotes | docs/tools/example_psg_write_log_to_midi.py:286-389 | the list is sorted and holds of every channel its notes and no others; nothing stays active |
| NoteResults.ChannelNotesAreRuns | docs/tools/example_psg_write_log_to_midi.py:286-389 | a note is there if and only if it is a maximal run of one pitch that lasts some time |
| NoteResults.ChannelNotesAreDisjoint | docs/tools/example_psg_write_log_to_midi.py:286-389 | the notes of a channel have a length and never overlap |
| HeardNotes.ChannelNotesAreHeard | docs/tools/example_psg_write_log_to_midi.py:286-389 | from the bytes of the log alone: a channel has a note for every stretch in which one pitch is heard, the noise without a divider and a tone with one of at least 2, and no other |
| HeardNotes.ExtractHeardNotes | docs/tools/example_psg_write_log_to_midi.py:286-389 | the list holds exactly these notes of the channels of the chips, sorted by start, chip and channel |
| NoteTracker.NoteTrack.Update | src/emulator/audio_analysis.c:402-423 | a note comes out exactly when the run of the last sample is over, with its start and loudest level |
| NoteTracker.NoteTrack.Finish | src/emulator/audio_analysis.c:426-432 | the note that still plays comes out at the end |
| CapturedNotes.Detector.Feed | src/emulator/mcp/dispatch.c:17212-17221 | one write for one tracker: its note is listed exactly if a run ends and reaches into the range |
| CapturedNotes.Detector.Take | src/emulator/mcp/dispatch.c:17208-17222 | one record goes to the tracker of its channel on every addressed chip and to no other |
| CapturedNotes.PsgNotes | src/emulator/mcp/dispatch.c:17188-17232 | for every channel the list has exactly the notes of its runs up to the last frame that do not end before the first, in order, and none of a chip that is not there |
| CapturedSound.HistoryIs | src/emulator/mcp/dispatch.c:17208-17222 | a tracker has seen one sample for each record that sets the tone or the volume of its channel on its chip, with the values last set |
| CapturedSound.NotesAreStretches | src/emulator/audio_analysis.c:378-432 | a note comes out for every stretch of one sound and for nothing else: from its first sample to the one that ends it, 15 less the attenuation of its loudest sample |
| CapturedSound.CapturedList | src/emulator/mcp/dispatch.c:17188-17232 | from the records alone: a note is listed with its source if and only if it is that of a stretch of a channel of the chips in the records up to the last frame that does not end before the first |
| NoteTracker.NotesAreRuns | src/emulator/audio_analysis.c:378-432 | a note comes out for every maximal run of one pitch and for nothing else |
| NoteTracker.NotesInOrder | src/emulator/audio_analysis.c:389-398 | for samples in time order no note ends before it begins or begins before the one before ends; levels are 1 to 15 |
| NoteTracker.LeastIsLeast | src/emulator/audio_analysis.c:412-418 | the level of a note is that of its loudest sample |
| SoundSpans.Spans | src/emulator/audio_analysis.c:65-87 | the total counts all runs whatever the capacity, and the first that fit are written |
| SoundSpans.SpansPartition | src/emulator/audio_analysis.c:65-87 | every frame is in exactly one span of the one value or the other |
| SoundSpans.SpanHasItsFrames | src/emulator/audio_analysis.c:65-87 | a span holds exactly the frames of its run, all of the value, and cannot be made longer |
| Resample.WindowIsInside | src/emulator/audio_analysis.c:130-145 | at any rates every window is nonempty and inside the input |
| Resample.WindowsAreConsecutive | src/emulator/audio_analysis.c:137-145 | when the rate is not raised the windows follow each other without gap or overlap |
| Resample.FramesKeepTheTime | src/emulator/audio_analysis.c:130-142 | as many frames as the time of the input holds, and each window starts with the frame that is playing when the output frame starts |
| Resample.RaisedRateRepeats | src/emulator/audio_analysis.c:137-145 | when the rate is raised each window is one frame |
| Resample.AveragesAreMeans | src/emulator/audio_analysis.c:146-158 | each side gets the mean of its samples and a mix the mean of those of both sides, rounded towards zero |
| Resample.EqualSidesMix | src/emulator/audio_analysis.c:152-157 | a signal with equal sides is mixed to what each side gives alone |
| Resample.AverageIsBetween | src/emulator/audio_analysis.c:146-158 | every average lies between bounds of its window |
| Resample.OutFrameFits | src/emulator/audio_analysis.c:152-157 | the cast to 16 bits changes nothing |
| Resample.EqualRatesChangeNothing | src/emulator/audio_analysis.c:137-160 | at equal rates a stereo signal is returned as it is |
| Resample.ResampleS16 | src/emulator/audio_analysis.c:137-160 | the loops write the averages of the windows and nothing else |
| LagSearch.Envelope | src/emulator/audio_analysis.c:214-229 | the sliding sum is the sum of the window at every position |
| LagSearch.MeanSq | src/emulator/audio_analysis.c:190-207 | the mean squared difference over the overlap, and its length |
| LagSearch.NoOverlapIsUpward | src/emulator/audio_analysis.c:193-199 | where two signals do not overlap they do not at any greater lag |
| LagSearch.BestLag | src/emulator/audio_analysis.c:251-267 | the earliest lag with the least mean square over all overlapping lags, -1 exactly when none overlaps |
| LagSearch.OverlapIs | src/emulator/audio_analysis.c:190-199 | which samples are compared at a lag |
| LagSearch.DelayIsFound | src/emulator/audio_analysis.c:251-267 | if the second signal is the first one delayed, the search finds the least lag at which they agree |
| LagSearch.SameDifference | src/emulator/audio_analysis.c:200-207 | a constant difference has its square as the mean square, at any overlap |
| RecentDirs.PushedIsUnique | src/baseui/baseui_fchooser_lastdir.c:161-182 | moving to the front keeps the list free of duplicates |
| RecentDirs.AfterIsMostRecent | src/baseui/baseui_fchooser_lastdir.c:161-182 | after any history of uses the list is the ten most recently used directories, each once, ordered by last use |
| RecentDirs.KeptAreFirsts | src/baseui/baseui_fchooser_lastdir.c:392-409 | the compaction keeps the first of equal paths, in order, of any slots |
| RecentDirs.SaveThenLoad | src/baseui/baseui_fchooser_lastdir.c:331-353 | saving a list and loading it gives the list back |
| LastDirs.Normalize | src/baseui/baseui_fchooser_lastdir.c:130-142 | the longest beginning of the path that ends in no separator or is a root |
| LastDirs.Memory.RecentPush | src/baseui/baseui_fchooser_lastdir.c:161-182 | the in-place search and shift give the list with the path in front, and keep it contiguous and free of duplicates |
| LastDirs.Memory.Remember | src/baseui/baseui_fchooser_lastdir.c:196-211 | what is remembered for a category, as last directory and in the list, and what is ignored |
| LastDirs.Memory.Get | src/baseui/baseui_fchooser_lastdir.c:213-236 | the first of own, stand-in and last directory that exists; tapes and tape files stand in for each other, the common directory for all others |
| LastDirs.Memory.GetRecent | src/baseui/baseui_fchooser_lastdir.c:300-310 | the list |
| LastDirs.Memory.Compact | src/baseui/baseui_fchooser_lastdir.c:392-409 | any loaded slots become a contiguous list without duplicates of their first occurrences |
| LastDirs.BothAreEquivalences | src/baseui/baseui_fchooser_lastdir.c:147-154 | both path comparisons of the source are equivalences |
| LastDirs.NoCaseIsCaseOnly | src/baseui/baseui_fchooser_lastdir.c:147-154 | two paths are the same without regard to case exactly when they differ in the case of ASCII letters only |

## Left out

- `malloc` and `realloc` failure in `audio_changed`, the mutex and the emulation-speed branch around `old_log`, volume, video and capture taps.
- Time stamps are unbounded integers; the 32-bit truncation of tick counts is modelled, a wrap of the 64-bit clock is not, and a fill before the last grid point (an unsigned difference that wraps) is outside the runs considered.
- AudioRuns.LogsAreTheHistory: asks that no frame lasts 2^32 ticks or more (over a minute at any clock of the emulator) and that each cut meets its guard, because the code does not conserve the history otherwise (AudioUnsafeCuts.LogsAreTheHistoryIff).
- AudioUnsafeCuts.LogsAreTheHistoryIff: asks that no frame lasts 2^32 ticks or more.
- AudioSnapshot.SnapshotContinues: the PSG registers of the snapshot are taken as given; the loaded log starts with silent sources, so it agrees with the old one in the steps, not in the levels before the first step.
- How the audio thread renders a finished log past its cut; the PSG steps are those of `psg.c`, its reset and snapshot code is not modelled.
- The bridge: process spawning, sockets, asyncio internals and logging; timeouts, cancellation and the backend's answers are steps that may happen at any time. Two calls that dial a TCP backend at the same time, where the reader started by the first takes up the connection of the second, are not modelled; nor the contents of the hello and of the event queue, `emu_stop` beyond marking and detaching, and payloads of requests and results.
- McpBridgeReconnect.OnlyLateRepliesAreDiscarded: is about runs whose reconnects are harmless, because any other reconnect can lose a reply (McpBridgeRace.HarmlessIffNothingIsLost).
- McpBridgeOrder.AcceptanceLeavesOnlyStrays: is about runs whose reconnects are harmless, for the same reason.
- McpBridgeAnswers.RequestIsAnswered: says that such a run exists, since the backend need not answer; after a reconnect that is not harmless the reply can be lost. The same holds for CallIsAnswered, AgainIsAnswered, NextCallIsAnswered and CrashIsReported of McpBridgeSessions.
- PoRoundTrip.HeaderOfSave: is about fields without a backslash; the fields the tool writes have none.
- PoRoundTrip.SaveThenParseIff: is about entries with a nonempty msgid, comments and references on one line, flags without the separator and no carriage return, because the others have no form in the file that reads back; the fields of the header are any lines, at least one.
- UTF-8 encoding and the line ends an operating system writes; reading translates CR LF and CR as text mode does. Validation and translation in `i18n_translate.py`.
- CapturedNotes.PsgNotes: gives the list before its final sort by start and channel, and not the flag that tells whether the memory of the capture is complete.
- Seconds and sample values are real numbers where the source has floating point; the rounding modelled is that of printed decimals. ffmpeg strings, fonts, geometry, chapters and file checks of the export.
- VideoPlan.TransitionsAreInside: is about transition times that are not negative.
- VideoPlan.NoOverlapIffRoomy: is about transition times that are not negative.
- The text of a speed (`speed_label`), the pitch of a divider and the velocity of an attenuation are parameters. Parsing the write log and building MIDI tracks.
- Resample.ResampleS16: products of frame counts and rates are unbounded, because the 64-bit ones of the source overflow only beyond any recording.
- `audio_compare`, `audio_diff`, `decimate`, the histogram and the WAV header: they add sums and easy members only.
- The INI syntax, bookmarks and `resolve` of the directory memory; whether a directory exists is a parameter. Locks.

# agenton-pocket: a verified model of session sharing

agenton-pocket is a daemon that owns terminal sessions and shares each of them with several
clients at once: a desktop terminal, a phone, a browser. This project models the parts of it
that decide what a client sees and who controls a session, and proves what they promise.

| file | models |
|---|---|
| `Common.dfy` | options, results, sequence facts; decimal numerals |
| `VtMode.dfy` | the scanner of DEC private modes and the bytes that restore them |
| `Terminal.dfy` | a small ECMA-48 terminal, the machine at both ends of an attach |
| `Replay.dfy`, `ReplayRoundTrip.dfy`, `ReplayTheorems.dfy` | the attach replay: printing a terminal's state, and what a fresh terminal makes of it |
| `HistoryWidth.dfy` | replaying history lines wider than the terminal |
| `ModeAgreement.dfy` | the scanner against the terminal's own parser |
| `LiveAttach.dfy`, `Attaching.dfy`, `AttachLosses.dfy` | replay and live bytes together; the same for a session of which chunks were read and which was resized, and for a client that joins it; sessions whose clients show a difference |
| `ProcTree.dfy`, `Discover.dfy` | the process-tree search and the agents found with it |
| `Session.dfy` | one shared session: owner, size, subscribers, output, exit |
| `Daemon.dfy`, `DaemonSteps.dfy`, `LiveDaemon.dfy` | the protocol over many sessions and connections; what each of its events does, spelled out over every run; the handler object that performs its steps |
| `Frames.dfy`, `Pipeline.dfy`, `Replies.dfy` | the frame codec in both implementations; the byte pipeline of an attach; the answers a managing client gets |
| `Pager.dfy`, `RedrawLoop.dfy` | the desktop view: render cache, paged window, anchor, redraw loop |
| `CursorSplice.dfy`, `DrawnRows.dfy` | drawing the cursor into a row of styled text; what a terminal shows of such a row |

Objects that update themselves in place are classes (`ModeTable`, `LiveSession`, `LiveDaemon`,
`Stream`, `ChanReader`, `VtEmu`, `SessionModel`); loops are methods. Each is proved against a
specification on values, and the theorems about runs are about those specifications.

## What is proved

* **Replay.** For every terminal whose rows were printed and are no wider than it, whatever output and resizes it went
  through, the replay gives a fresh terminal of the same size an equal screen and cursor, and an equal
  history under the exact condition below; a line left from a narrower terminal comes back filled up with blanks.
  A taller client holds the original lines first and the cursor on its own line. An empty cell and a
  blank one are the same, and links are not carried.
* **Replay and live bytes.** Whatever the session writes next, client and session go on looking the
  same, under an exact condition on the session's terminal at the snapshot. So does a client that joins a
  running session, fed what its channel delivers.
* **Modes.** The scanner that jumps over matched sequences is the one that looks at every position, and
  on output whose sequences are whole it agrees with the terminal's own parser.
* **Process tree.** The breadth-first search lists each reachable process once, by distance, in any
  graph, and ends.
* **Sharing.** Over every run: subscribers of an owned session agree on who owns it, the size follows
  the owner, a resize takes effect exactly when nobody else owns the session, the owner changes only on
  request or disconnect, a client that hangs up hands its sessions on, a subscriber's stream is the output
  since its snapshot, whole and in order unless its queue overflowed, and a managing client's calls return
  the answers to its own questions. Every session of a run goes through a run of its own.
* **Bytes.** What a reader gets is always a prefix of replay and live output, and all of it in the end.
* **View.** The render cache is a fresh rendering, no redraw is lost, and a paged window stays on
  its lines. A terminal that is fed a row with its cursor shows the row with one cell reversed.

Properties that the code has only under a condition are stated with the exact condition, and with an
input for which they fail:

* A mode sequence cut by a chunk boundary is lost to the scanner, and nothing else is
  (`VtMode.ScanChunks`, `VtMode.CutSequenceIsLost`).
* A terminal obeys control characters inside a mode sequence and reads on; the scanner does not know such a
  sequence. Both read equally many if and only if there is none (`ModeAgreement.CleanIff`,
  `ModeAgreement.InterruptedIsMissed`).
* The replayed history arrives unless the scanned modes name the alternate screen while the main one
  shows and there is history (`Attaching.ReplayOfSession`). A cut reset does it
  (`AttachLosses.CutSwitchLosesHistory`), and so do two switching modes that overlap, with nothing cut
  (`AttachLosses.OverlapLosesHistory`).
* Not replayed are the pen, a pending wrap, autowrap switched off, a half-read sequence or character, the scroll
  region, the saved cursor and the screen behind the alternate one. Client and session look the same after
  every continuation if and only if none of these was there to lose (`LiveAttach.LiveAfterReplayIff`,
  `Attaching.SessionThenLiveIff`). Each is lost by some output (`AttachLosses.PenIsLost`, `AttachLosses.WrapIsLost`,
  `AttachLosses.WrapModeIsLost`, `AttachLosses.SequenceIsLost`, `AttachLosses.CharacterIsLost`,
  `AttachLosses.RegionIsLost`, `AttachLosses.SavedCursorIsLost`, `AttachLosses.HiddenScreenIsLost`).
* The replay sets modes and resets none. On output whose sequences are whole the client ends with the session's
  modes if and only if no mode that was on from the start is off (`Attaching.ModesRestoredIff`,
  `AttachLosses.DefaultModeStaysOn`).
* In a client that wraps, a history with room left comes back line by line if and only if no line is wider than
  the terminal (`HistoryWidth.HistoryFitsIff`, `HistoryWidth.WideLineWraps`).
* `agentUnder` documents "" for "no agent". It also returns "" for an agent whose first
  space-separated word ends in a slash, such as `claude<TAB>/ x` (`Discover.TitleEmptyIff`,
  `Discover.MatchingWithEmptyTitle`). A title is the agent's name if and only if a blank or the end follows
  the name, or the word ends in the name once more (`Discover.TitleIsNameIff`,
  `Discover.TabStaysInTitle`).
* The frame header holds the length in 32 bits, so a frame reads back if and only if its payload is
  shorter than 2^32 bytes (`Frames.RoundTripIff`, `Frames.LongFrameIsLost`). Session ids wrap in the same way
  (`Daemons.WireIdsCollideIff`).
* A release or a disconnect leaves a session with a live owner, or none, for every choice of heir if
  and only if nobody who may inherit it has hung up (`Daemons.ReleaseLeavesLiveOwnerIff`,
  `Daemons.DropLeavesLiveOwnerIff`, `Daemons.OwnerMayBeGone`).
* `GetScreen` documents `Changed` as "the frame differs". It compares rendered text. The same text makes
  the same frame if and only if the height stayed and either the width did or every line fills both
  widths (`Pager.SameTextSameFrameIff`, `Pager.ResizeHidesAChange`); at one size different texts
  make the same frame if and only if they differ by spelled-out padding (`Pager.SameFrameIff`). Whether that
  occurs depends on the renderer; one that leaves out trailing blanks but not those with attributes it
  does not show has such texts (`Pager.ChangeWithoutDifference`).
* The paged window drifts by exactly the lines the scrollback cap drops (`Pager.ReadingDrift`,
  `Pager.OneLineDrift`).
* The comment on `reverseCellAt` says that it leaves every other attribute intact. Inside a reversed
  run it also ends the run (`CursorSplice.SpliceShowsIff`, `CursorSplice.ReversedRunIsBroken`), and a row that
  ends inside a control sequence swallows an appended cursor (`CursorSplice.SpliceReadsBackIff`).

## Assumptions

* Each request, each session's turn in the disconnect handler and each exit handler is one step, and
  an attach includes the subscription its streaming goroutine makes. The program does these in
  several critical sections; agreement is not claimed for interleavings inside them.
* Agreement is stated for subscribers to whom no write has failed yet.
* Both terminals of a replay are the machine of `Terminal.dfy` (sections 5.4, 8.3.20, 8.3.21 and 8.3.22 of
  ECMA-48). They start with the same modes on. Modes 47, 1047 and 1049 switch to the alternate screen, 1048 and
  1049 save the cursor when set and restore it when reset, as ESC 7 and ESC 8 do, and there is one saved
  cursor; 7 decides whether text wraps; the other modes change nothing that is printed. Missing parameters and
  numbers beyond an int name no mode. The session's terminal reads bytes, which make characters as section 3
  of RFC 3629 says; the replay's text is a sequence of grapheme clusters whose width both measure alike.
* A resize of the session's terminal may change rows, history and cursor as it likes; it keeps modes,
  the showing screen and what the parser has read.
* `Style.Diff` belongs to a library; `Replay.DiffOps` is an implementation with the law the replay
  needs (`Replay.DiffLaw`).
* Messages and events name a session by its creation index; `Daemons.WireId` gives the id sent.

## Model

| member | source | states |
|---|---|---|
| VtMode.SkipIsSafe | internal/vtmode/vtmode.go:30-50 | no sequence starts on the bytes the scanner jumps over |
| VtMode.ModeTable.Update | internal/vtmode/vtmode.go:20-52 | the skipping scan of a buffer changes the table as looking at every position does |
| VtMode.ModeTable.ApplyAll | internal/vtmode/vtmode.go:38-49 | every field that is a number sets or deletes its mode; empty and oversized ones do nothing |
| VtMode.ScanChunks | internal/vtmode/vtmode.go:15-19 | scanning two chunks is scanning their concatenation except for the one sequence the cut divides |
| VtMode.StraddlerIsUnique | internal/vtmode/vtmode.go:15-19 | a boundary cuts at most one sequence |
| VtMode.CutSequenceIsLost | internal/vtmode/vtmode.go:15-19 | a divided sequence really is lost |
| VtMode.SortInts | internal/daemon/session.go:562 | the same numbers, strictly ascending |
| VtMode.ModeRestoreBytes | internal/daemon/session.go:552-568 | prints the set sequence of exactly the modes that are on, each once, in ascending order |
| VtMode.RestoreIsStable | internal/daemon/session.go:549-551 | the set of modes that are on alone decides the bytes |
| VtMode.AscendingListIsUnique | internal/daemon/session.go:549-551 | a set has one ascending list |
| VtMode.RestoreRoundTrip | internal/daemon/session.go:552-568 | scanning the printed modes from nothing gives the table back if and only if a scan could have left it |
| VtMode.ScanKeepsScanned | internal/vtmode/vtmode.go:37-49 | scanned tables hold only true, with keys from 0 to the largest int |
| VtMode.ReachableModesRoundTrip | internal/daemon/session.go:265-266 | every table reached by scanning output survives print and scan |
| Replay.DiffLaw | internal/daemon/replay.go:101-105 | a style transition, applied in the old style, yields the new one |
| Replay.WriteCells | internal/daemon/replay.go:93-115 | one row as text: shadows skipped, empty cells as spaces, a transition where the style changes, a final reset |
| Replay.Trim | internal/daemon/replay.go:61-68 | drops exactly the trailing unstyled, unlinked blanks |
| Replay.WriteHistory | internal/daemon/replay.go:39-44 | every history line, each ended by CR LF |
| Replay.WriteScreen | internal/daemon/replay.go:48-70 | appends the trimmed rows, joined by CR LF |
| Replay.WritePark | internal/daemon/replay.go:72-80 | appends CR, up and forward to the cursor |
| Replay.SerializeReplay | internal/daemon/replay.go:24-86 | the pieces together are mode lead, history unless the alternate screen shows, screen and park; none is empty |
| Terminal.FeedConcat | internal/daemon/daemon.go:472-474 | a stream fed in pieces leaves the same terminal, wherever it is cut |
| Terminal.FeedCsi | internal/daemon/replay.go:75-80 | a printed control sequence is read as the operation it names |
| Terminal.FeedMode | internal/daemon/session.go:564-566 | a printed mode sequence sets or resets exactly its mode |
| ReplayRoundTrip.PrintRow | internal/daemon/replay.go:88-115 | a printed row lands cell for cell, trimmed or not, and leaves the default pen |
| ReplayRoundTrip.LineFeedOnTape | internal/daemon/replay.go:46-52 | the line feed of CR LF adds one row whether or not the screen scrolls |
| ReplayRoundTrip.JoinOnTape | internal/daemon/replay.go:39-70 | all lines arrive in order, in history and screen, with no extra line |
| ReplayRoundTrip.FeedLead | internal/daemon/replay.go:26-28 | the mode lead turns on exactly the listed modes |
| ReplayRoundTrip.FeedPark | internal/daemon/replay.go:72-80 | the park reaches the cursor's row and column without being clamped |
| ReplayRoundTrip.ReplayArrives | internal/daemon/replay.go:13-23 | the whole state of a client of any height at least the session's, after the replay |
| ReplayTheorems.SameSizeRoundTrip | internal/daemon/replay.go:13-19 | same size: history, screen and cursor come back, and the pen is the default one |
| ReplayTheorems.TallerClient | internal/daemon/replay.go:21-23 | taller client: its lines start with the original ones and the cursor is on its own line |
| ReplayTheorems.AltScreenRoundTrip | internal/daemon/replay.go:34-39 | alternate screen: only the frame is replayed, nothing enters the history |
| ReplayTheorems.HistoryRestoredIff | internal/daemon/replay.go:34-39 | history comes back if and only if the lead agrees that the main screen shows, or there is none |
| ReplayTheorems.ReachedRoundTrip | internal/daemon/replay.go:13-23 | for terminals reached by output, the restored rows are equal, not only equivalent |
| HistoryWidth.LineTakesOneRowIff | internal/daemon/replay.go:40-43 | in a terminal of two columns or more with room in its history, a line takes one row if and only if it is no wider or the terminal does not wrap |
| HistoryWidth.WideLineWraps | internal/daemon/replay.go:40-43 | a line that takes more than one row |
| HistoryWidth.WideHistoryGrows | internal/daemon/replay.go:40-43 | with one line too wide, in a client that wraps, the client's history is longer than the session's |
| HistoryWidth.HistoryFitsIff | internal/daemon/replay.go:39-44 | in a client that wraps the whole history comes back if and only if every line fits the width, while the history has room |
| ModeAgreement.ParserScans | internal/vtmode/vtmode.go:15-19 | from any state not inside a mode sequence, terminal and scanner keep the same modes over every byte string without control characters inside its sequences |
| ModeAgreement.CleanIff | internal/vtmode/vtmode.go:20-52 | the terminal's parser performs as many mode sequences as the scan finds if and only if none has control characters inside |
| ModeAgreement.InterruptedIsMissed | internal/vtmode/vtmode.go:32-36 | a sequence with a line feed inside that the terminal obeys and the scan misses |
| ModeAgreement.UncutScansWhole | internal/vtmode/vtmode.go:16-19 | output with no sequence cut scans chunk by chunk as it does whole |
| ModeAgreement.ScannerAgrees | internal/daemon/session.go:265-266 | on output whose sequences are whole the terminal has on what was scanned and otherwise only modes on from the start |
| ModeAgreement.ScannerKnowsTheScreen | internal/daemon/replay.go:34-38 | on such output with one switching mode the scanned modes say which screen shows |
| LiveAttach.ReplayOfOutput | internal/daemon/replay.go:13-23 | for every terminal whose rows fit it and any mode lead screen and cursor arrive, and the history unless the lead wrongly names the alternate screen and there is some |
| LiveAttach.LiveAfterReplay | internal/daemon/session.go:527-546 | under the condition, client and session look the same after replay and any live bytes |
| LiveAttach.LiveAfterReplayIff | internal/daemon/session.go:527-546 | the condition is exact: nothing half read, default pen, no pending wrap, wrapping as the client does, every row scrolling, no cursor saved, the screen the modes say, nothing behind the alternate one |
| Attaching.ReplayOfSession | internal/daemon/session.go:543-546 | for all chunks and resizes screen and cursor arrive, and the history unless the scanned modes wrongly name the alternate screen and there is some; on whole sequences with one switching mode they never do |
| Attaching.ModesRestoredIff | internal/daemon/session.go:549-568 | the client has the starting modes and the scanned ones; on whole sequences these are the session's if and only if no starting mode is off |
| Attaching.SessionThenLiveIff | internal/daemon/session.go:527-546 | on whole sequences with one switching mode the exact condition is one on the session's terminal alone |
| Attaching.JoinedSession | internal/daemon/session.go:543-547 | after any run, a client fed the replay made when it joined and then what its undropped channel delivered looks like the session's terminal after the output of the whole run |
| AttachLosses.CutSwitchLosesHistory | internal/vtmode/vtmode.go:16-19 | three chunks, a reset cut in two, whose history is lost |
| AttachLosses.OverlapLosesHistory | internal/daemon/replay.go:34-38 | one chunk with overlapping switching modes whose history is lost |
| AttachLosses.DefaultModeStaysOn | internal/daemon/session.go:557-561 | a cursor hidden in the session and shown at the client |
| AttachLosses.WrapModeIsLost | internal/daemon/session.go:557-561 | output after which the client wraps what the session overwrites |
| AttachLosses.WrapIsLost | internal/daemon/replay.go:72-80 | output after which the client overwrites what the session wraps |
| AttachLosses.PenIsLost | internal/daemon/replay.go:112-114 | output after which the client prints plain what the session prints bold |
| AttachLosses.RegionIsLost | internal/daemon/replay.go:45-70 | output after which the client scrolls rows that the session keeps |
| AttachLosses.SavedCursorIsLost | internal/daemon/replay.go:72-80 | output after which the client, leaving the alternate screen, is in another column |
| AttachLosses.HiddenScreenIsLost | internal/daemon/replay.go:34-39 | output after which the client has no main screen to come back to |
| AttachLosses.SequenceIsLost | internal/daemon/session.go:543-546 | output after which the client prints the rest of a sequence |
| AttachLosses.CharacterIsLost | internal/daemon/session.go:543-546 | output after which only the session prints a character when its last bytes come |
| AttachLosses.OneColumnHidesTheWrap | internal/daemon/replay.go:72-80 | a one-cell terminal whose pending wrap never shows |
| ProcTree.NoShortcut | internal/daemon/discover.go:68-79 | what is reachable and unvisited is announced by the queue at no greater depth |
| ProcTree.HeadDistance | internal/daemon/discover.go:70-77 | an unvisited head is listed at its true distance |
| ProcTree.Finished | internal/daemon/discover.go:70-80 | when the queue is empty exactly the reachable processes were listed |
| ProcTree.Descendants | internal/daemon/discover.go:65-81 | every process reachable from root except root, once each, in order of distance and queueing, for any graph |
| ProcTree.ChildrenFirst | internal/daemon/discover.go:66-81 | the root's children are listed first, in the order of the table |
| Discover.MatchIsNamed | internal/daemon/discover.go:15 | every matching command names one of the five agents after a directory prefix |
| Discover.MatchIff | internal/daemon/discover.go:15 | a command line matches if and only if it is a directory, one of four names and whitespace or the end, or a directory, `ollama`, whitespace, `run` and whitespace |
| Discover.TitleIsNameIff | internal/daemon/discover.go:15 | the title is that name if and only if a blank or the end follows it, or the first word ends in a slash and the name |
| Discover.TitleIsKnown | internal/daemon/discover.go:15 | when only blanks follow the names, the title is one of the five agents |
| Discover.TabStaysInTitle | internal/daemon/discover.go:15 | a matching command whose title is no agent's name |
| Discover.TitleEmptyIff | internal/daemon/discover.go:83-93 | the title is empty if and only if the first space-separated word ends in a slash |
| Discover.MatchingWithEmptyTitle | internal/daemon/discover.go:15 | a command that matches and has an empty title |
| Discover.AgentUnder | internal/daemon/discover.go:86-93 | the title of the first agent in the search's order, which is at least distance; empty if and only if there is none or its command has an empty title |
| Discover.FirstIsShallowest | internal/daemon/discover.go:83-85 | the first match in the search's order is at minimum depth |
| Discover.UnmanagedSessions | internal/daemon/discover.go:129-147 | exactly the matching processes that are neither a session's nor reachable from one |
| Sessions.LiveSession.OwnsSize | internal/daemon/session.go:83-90 | true exactly for the owner; an unowned session is claimed when asked to |
| Sessions.LiveSession.TakeSize | internal/daemon/session.go:94-98 | the caller becomes the owner and nothing else changes |
| Sessions.LiveSession.ReassignOwnerAfter | internal/daemon/session.go:111-127 | the caller no longer owns it; another subscriber does if there is one |
| Sessions.LiveSession.Resize | internal/daemon/session.go:294-307 | positive sizes are recorded, others refused without effect |
| Sessions.LiveSession.HandleOutput | internal/daemon/session.go:261-277 | the chunk is scanned, emitted and offered to every subscriber; a full queue drops it |
| Sessions.LiveSession.FanOut | internal/daemon/session.go:267-276 | each subscriber's queue gets the chunk if it has room, and no other channel changes |
| Sessions.LiveSession.SubscribeWithScrollback | internal/daemon/session.go:530-547 | a new open channel from the snapshot on, or a closed one and no snapshot after the end |
| Sessions.LiveSession.Unsubscribe | internal/daemon/session.go:521-525 | the channel is dropped from the subscribers |
| Sessions.LiveSession.EndSubscriptions | internal/daemon/daemon.go:437-447 | the session is ended, every subscribed channel closed once, no subscriber left |
| Sessions.StepKeepsGood | internal/daemon/session.go:261-277 | every step keeps the delivery invariant, distinct open subscriptions and the queue bound of 1024 |
| Sessions.RunsAreGood | internal/daemon/session.go:261-277 | so does every run |
| Sessions.NoGapNoDuplicate | internal/daemon/session.go:527-547 | the snapshot covers the output before the subscription; received plus queued is an ordered part of the output after it, and all of it if the queue never was full |
| Sessions.RunEmits | internal/daemon/session.go:261-266 | after every run the session has emitted exactly the output of the run, in order |
| Sessions.RunServes | internal/daemon/session.go:267-276 | what a subscribed channel took or still queues is the output up to the end of its subscription; it is subscribed until it leaves or the session ends, and closed exactly by that end |
| Sessions.DroppedWhenFull | internal/daemon/session.go:267-276 | a chunk is dropped only when the queue held 1024 |
| Sessions.EndIsFinal | internal/daemon/session.go:533-540 | over every run after the exit nobody is subscribed, nothing is emitted or delivered, no channel reopens, and a later one is born closed and stays empty |
| LiveDaemons.LiveDaemon.Broadcast | internal/daemon/daemon.go:405-411 | one frame to each snapshotted writer, and to nobody else |
| LiveDaemons.LiveDaemon.BroadcastActive | internal/daemon/daemon.go:397-412 | every subscriber is told whether it owns the size |
| LiveDaemons.LiveDaemon.RefocusSize | internal/daemon/daemon.go:133-141 | the caller's remembered size is applied if it differs |
| LiveDaemons.LiveDaemon.HandleResize | internal/daemon/daemon.go:305-329 | remembers the size; the owner or first claimer resizes; a claim is announced |
| LiveDaemons.LiveDaemon.HandleSetActive | internal/daemon/daemon.go:331-346 | takes or hands on the ownership and announces it |
| LiveDaemons.LiveDaemon.HandleAttach | internal/daemon/daemon.go:224-251 | subscribes, labels the pad and tells a non-owner so |
| LiveDaemons.LiveDaemon.HandleNew | internal/daemon/daemon.go:160-175 | lists the session under the next id; a failed start is unlisted and reported |
| LiveDaemons.LiveDaemon.HandleKill | internal/daemon/daemon.go:257-268 | unlists the session and writes nothing |
| LiveDaemons.LiveDaemon.Handle | internal/daemon/daemon.go:143-355 | every request performs the protocol step of its kind |
| LiveDaemons.LiveDaemon.HandleSessionExit | internal/daemon/daemon.go:436-462 | performs the exit step: closes, tells the former subscribers, unlists |
| LiveDaemons.LiveDaemon.DropFrom | internal/daemon/daemon.go:104-107 | one round of the disconnect handler performs the drop step |
| LiveDaemons.LiveDaemon.Disconnect | internal/daemon/daemon.go:97-108 | in every listed session the closed connection lets go of another subscriber owns the size if there is one, every subscriber was told whether it does, and nothing else changes; the rounds are steps of a run |
| Daemons.StepAgrees | internal/daemon/daemon.go:224-251 | every step keeps the agreement between owner and last flags sent |
| Daemons.RunsAgree | internal/daemon/daemon.go:392-412 | in every reachable state of an owned session, a subscriber's last flag is true if and only if it is the owner |
| Daemons.OneActiveSubscriber | internal/daemon/daemon.go:392-396 | no two subscribers of an owned session both believe to be active |
| Daemons.SizesAreLastAsked | internal/daemon/daemon.go:109-112 | the remembered size is what the connection last asked for |
| Daemons.SizeFollowsOwner | internal/daemon/daemon.go:305-346 | over every run a size changes only to what the acting connection last asked for, and it owns the session then |
| Daemons.OwnerChangesOnlyBy | internal/daemon/daemon.go:270-346 | over every run an owner changes only by a claiming resize, an activation, a release or a disconnect, never by actions, text, output or exit |
| DaemonSteps.ResizeIff | internal/daemon/daemon.go:305-329 | over every run a resize takes effect, and its sender owns the session, if and only if nobody else owned it; otherwise owner and size stay |
| DaemonSteps.ActivationTakes | internal/daemon/daemon.go:331-338 | over every run an activation makes the sender owner, at the size it last asked for if it did |
| DaemonSteps.AttachSubscribes | internal/daemon/daemon.go:224-251 | over every run an attach subscribes the sender on an empty channel, writes its two labels and a flag if somebody else owns the size |
| DaemonSteps.OthersAreLeftAlone | internal/daemon/daemon.go:143-355 | a request that concerns no session's state gets its one reply, or none, and changes no session and no other log |
| DaemonSteps.CreationReplies | internal/daemon/daemon.go:160-221 | a new session is reported by its index, one that could not start as an error; the others stay |
| DaemonSteps.ListedAfter | internal/daemon/daemon.go:160-268 | over every run: which sessions are listed after each step |
| DaemonSteps.StaysUnlisted | internal/daemon/daemon.go:257-268 | a killed or ended session is not listed again until its id is handed out again |
| DaemonSteps.ExitEnds | internal/daemon/daemon.go:436-462 | over every run an exit closes the subscribed channels, keeps what they queue, tells each subscriber once per channel and unlists the session |
| DaemonSteps.RetitleTells | internal/daemon/daemon.go:414-430 | a title change is told to each subscriber and changes nothing else |
| DaemonSteps.HandoverTells | internal/daemon/daemon.go:397-412 | a handover is told to each subscriber, with whether it owns the size now |
| DaemonSteps.RunGoesOn | internal/daemon/daemon.go:97-108 | the rounds of a disconnect extend any run |
| DaemonSteps.SessionsRun | internal/daemon/daemon.go:143-355 | every session of a run of the daemon goes through a session run of the events meant for it |
| DaemonSteps.OutputIsKept | internal/daemon/session.go:261-266 | over every run a session has emitted what it produced, all of it and in order |
| Daemons.RememberedResizeTakesEffect | internal/daemon/daemon.go:313-338 | a resize refused for want of ownership is applied on the later activation |
| Daemons.ReleaseLetsGo | internal/daemon/session.go:108-127 | after a release or drop the owner is another client, or none and nobody else is subscribed |
| Daemons.ReleaseLeavesLiveOwnerIff | internal/daemon/session.go:108-127 | every choice of heir is a live connection, or there is none, if and only if nobody who may inherit has hung up |
| Daemons.DropLeavesLiveOwnerIff | internal/daemon/daemon.go:104-107 | the same for one round of the disconnect handler |
| Daemons.OwnerMayBeGone | internal/daemon/session.go:117-124 | a run in which a release hands the size to a client that hung up |
| Daemons.RepliesAreAligned | internal/client/client.go:29-53 | on a connection that never attaches the k-th control frame answers the k-th round trip, in every run; a new session's answer names the session that request created |
| Replies.CallAll | internal/client/client.go:34-53 | the n-th call on a connection that carries the daemon's log returns an answer to the n-th question, in every run |
| Daemons.RunsKeepIds | internal/daemon/daemon.go:558-564 | ids are handed out in creation order and key the list |
| Frames.RoundTripIff | internal/protocol/frame.go:24-54 | a written frame and any rest read back as that frame and rest if and only if the payload is shorter than 2^32 |
| Frames.LongFrameIsLost | internal/protocol/frame.go:28 | a frame too long for the header does not read back |
| Frames.Layout | internal/protocol/frame.go:14-37 | the bytes of a frame: kind, then session id and length as big-endian numbers, then the payload |
| Frames.DecodeFails | internal/protocol/frame.go:40-54 | which streams hold no frame, and which error says so |
| Frames.Reencode | internal/protocol/frame.go:40-54 | encoding what was read reproduces the consumed bytes |
| Frames.PrefixFree | internal/protocol/frame.go:14-37 | no encoding is a proper prefix of another |
| Frames.StreamRoundTrip | internal/protocol/frame.go:40-54 | a stream of frames reads back as those frames |
| Frames.CutStream | internal/protocol/frame.go:47-52 | a stream cut anywhere reads as a prefix of the frames |
| Frames.WriteFrame | internal/protocol/frame.go:24-38 | appends the frame's encoding to the stream |
| Frames.ReadFrame | internal/protocol/frame.go:40-54 | takes one frame off the stream, or reports which way it ended |
| Frames.JsEncodeControl | internal/web/static/frame.js:5-14 | the browser's control frames are the daemon's encoding of them |
| Frames.Bridge | internal/web/server.go:81-94 | the messages concatenated are the bytes read, each one exactly one frame |
| Pipeline.SplitFrames | internal/daemon/daemon.go:494-510 | non-empty pieces that join to the input, all full except the last |
| Pipeline.StreamTo | internal/daemon/daemon.go:477-492 | output frames of at most 64 KiB that carry replay, then live output |
| Pipeline.Attach | internal/client/client.go:104-147 | returns exactly the output before the announced end and leaves the frames after it on the connection |
| Pipeline.ForwardedUpToEnd | internal/client/client.go:118-143 | exactly the output before the first announced end is forwarded, and the frames after it stay unread |
| Pipeline.Roundtrip | internal/client/client.go:34-53 | returns the first control frame waiting, skipping output, and leaves the later ones |
| Pipeline.ForwardedPrefix | internal/client/client.go:118-143 | a prefix of the frames forwards a prefix of the chunks, all of them if no end is announced |
| Pipeline.ChanReader.Read | internal/tui/term.go:26-43 | what is returned and what is pending is what was pending; the end is reported only when nothing is left |
| Pipeline.ReadAll | internal/tui/vtemu.go:79-98 | the same over any sequence of buffer sizes |
| Pipeline.ArrivesInOrder | internal/daemon/daemon.go:472-492 | whatever frames a cut connection carries, forwarded bytes are a prefix of the output, and all of it when nothing is cut or pending |
| Pipeline.Serve | internal/daemon/daemon.go:477-492 | the connection carries the output frames in order, with control frames anywhere between them |
| Pipeline.EndToEnd | internal/daemon/daemon.go:472-492 | streaming, framing, a cut connection, attach loop and reader in one: a prefix of replay and live output, and all of it at the end of an uncut connection |
| Pager.LinesOfJoin | internal/tui/vtemu.go:253-265 | text joined by newlines is cut into the same rows |
| Pager.SplitIntoRows | internal/tui/vtemu.go:250-265 | exactly height rows, missing and empty ones blank |
| Pager.FrameIsTheScreen | internal/tui/vtemu.go:250-273 | row i of the picture is row i of the screen, filled to exactly the width |
| Pager.RestIsBlank | internal/tui/vtemu.go:250-265 | below the last line of the text the picture is blank to the full width |
| Pager.SameTextSameFrameIff | internal/tui/vtemu.go:152-169 | the same text makes the same frame if and only if the height stayed and the width did or every line fills both widths |
| Pager.SameFrameIff | internal/tui/vtemu.go:152-169 | at one size two texts make the same frame if and only if their shown lines differ by spelled-out padding only |
| Pager.VtEmu.Write | internal/tui/vtemu.go:79-98 | the chunk is applied, the cache marked stale and a token left |
| Pager.VtEmu.Resize | internal/tui/vtemu.go:178-185 | the same for a resize |
| Pager.VtEmu.GetScreen | internal/tui/vtemu.go:152-169 | cached or not, the rows are those of a rendering made now; an unchanged text repeats the frame exactly under the condition above |
| Pager.ResizeHidesAChange | internal/tui/vtemu.go:152-169 | render, resize, render: different rows, changed false |
| Pager.ChangeWithoutDifference | internal/tui/vtemu.go:152-169 | render, write, render: the same rows, changed true, with a renderer that measures columns |
| Pager.VtEmu.ScrolledView | internal/tui/vtemu.go:212-248 | the window over scrollback and screen, cut or filled to the width, blank past the end |
| Pager.ClampScrollTop | internal/tui/session.go:381-394 | within 0 and max, and equal to the sum if and only if that is |
| Pager.SessionModel.PinScroll | internal/tui/session.go:402-410 | a paged view keeps its distance from the oldest line |
| Pager.SessionModel.HandleWheel | internal/tui/session.go:335-379 | which of ignore, forward, arrows and paging happens, and the paged position after it |
| Pager.SessionModel.HandleKey | internal/tui/session.go:289-321 | ctrl+t touches nothing; any other key returns to the live bottom and unparks, claiming the size first if parked |
| Pager.SessionModel.RenderScrolled | internal/tui/session.go:524-537 | shows the window of the pinned position |
| Pager.FeedHistory | internal/vtmode/vtmode.go:11-13 | scrollback is the newest of all lines ever pushed, up to the cap |
| Pager.AfterOk | internal/tui/session.go:385-410 | every step keeps the window inside the history |
| Pager.ReadingDrift | internal/tui/session.go:396-410 | over every run of output and redraws the top line moves by exactly the lines dropped |
| Pager.AnchoredIff | internal/tui/session.go:396-401 | while the history only grows, the same line stays on top if and only if nothing was pushed or all of it fits below the cap |
| Pager.WheelMoves | internal/tui/session.go:373-394 | a notch moves the top line by three, between the oldest line kept and the live bottom |
| Pager.KeyReturns | internal/tui/session.go:289-321 | a key press shows the live bottom |
| Pager.PageIsSlice | internal/tui/session.go:524-527 | row r shown is line top + r of everything pushed followed by the screen |
| Pager.PageCell | internal/tui/vtemu.go:218-248 | each cell of the page is that of the line at its place, or an unstyled blank where the line has none |
| Pager.RunFeeds | internal/tui/vtemu.go:79-98 | over every run the emulator consumed all output and nothing else |
| Pager.PagedRowsStay | internal/tui/session.go:396-399 | scrollback rows on display do not change while nothing is dropped |
| Pager.DriftsAtTheCap | internal/tui/session.go:399-401 | at the cap each new line moves the page by one |
| Pager.OneLineDrift | internal/tui/session.go:399-401 | a view that does drift |
| RedrawLoop.StepGood | internal/tui/session.go:193-230 | every step keeps: a stale display has a token, a settling waiter or a tick coming, and somebody waits |
| RedrawLoop.NoLostRedraw | internal/tui/session.go:193-230 | so in every run; only resizes add waiters |
| RedrawLoop.NoLostRedrawFromTheStart | internal/tui/session.go:121-140 | in particular from the first view on, with one waiter more for every resize |
| RedrawLoop.StaleIsRedrawn | internal/tui/session.go:193-230 | left alone, the loop brings a stale display up to date in at most three steps |
| RedrawLoop.LoopFeeds | internal/tui/session.go:193-230 | over every run the emulator is what output and resizes made of it |
| RedrawLoop.DisplayIs | internal/tui/session.go:524-537 | a handled message shows the pager's page while the view is paged, else the live frame |
| RedrawLoop.ParkedStays | internal/tui/session.go:490-500 | a parked view shows the same picture until a key or a handover resumes it |
| RedrawLoop.ParkingFreezes | internal/tui/session.go:264-276 | a view that is parked freezes the picture of that moment; a key resumes it |
| RedrawLoop.MessageMoves | internal/tui/session.go:373-410 | wheel and keys move the window as the pager's, parking pins it, and no other message moves it |
| CursorSplice.TokensSpellTheRow | internal/tui/session.go:581-593 | cutting a row into escape sequences and glyphs loses nothing |
| CursorSplice.SequenceIsToken | internal/tui/session.go:582-593 | ESC [, parameters and intermediates, and a final character are one token, whatever follows |
| CursorSplice.CutSequenceIsToken | internal/tui/session.go:582-593 | so is one the row ends in the middle of |
| CursorSplice.BareEscapeIsToken | internal/tui/session.go:582-593 | an escape without a bracket is a token by itself |
| CursorSplice.ReverseCellAt | internal/tui/session.go:578-613 | the text is that of the row's tokens with the cursor spliced in |
| CursorSplice.SplicePlace | internal/tui/session.go:594-610 | every token survives in order; the glyph at the column is wrapped, or the row is padded and ends in a reversed space |
| CursorSplice.SpliceColumns | internal/tui/session.go:594-610 | the row is as wide as before, or just wide enough for the cursor |
| CursorSplice.SpliceReadsBackIff | internal/tui/session.go:582-593 | the text reads back as those tokens if and only if the row does not end in a cut sequence short of the cursor |
| CursorSplice.CutRowSwallows | internal/tui/session.go:607-610 | a row that swallows its cursor |
| CursorSplice.SpliceShowsIff | internal/tui/session.go:568-577 | one cell is reversed and every other attribute kept; the other cells keep reverse too unless the cursor is in a run that goes on |
| CursorSplice.CursorIsDrawn | internal/tui/session.go:568-577 | the same of the text as it is displayed |
| DrawnRows.RowIsShown | internal/tui/session.go:568-577 | what the tokens of a row say is on display is what the terminal machine shows after it was fed the row |
| DrawnRows.CursorIsShown | internal/tui/session.go:568-577 | fed the row with its cursor, the terminal shows the same cells with the one at the column reversed |
| DrawnRows.DrawCursor | internal/tui/session.go:578-613 | so does the text that is returned for a row |
| CursorSplice.NoCursor | internal/tui/session.go:594-607 | a negative column leaves the row alone |
| CursorSplice.ReversedRunIsBroken | internal/tui/session.go:570-572 | a run of three reversed cells of which two lose the attribute |

## Left out

- Wire text: JSON envelopes, TOML configuration and the client's own decoding are values of a datatype here.
- The real terminal emulator and renderers: external code. The emulator's rendering and column count are parameters of the view, its reflow on resize is an arbitrary next state.
- Bytes to graphemes: a character of several bytes is one or two columns wide, by blocks of 64 code points; malformed ones print nothing, and combining marks do not join the character before them. The replay's own text is not encoded. `CursorSplice` works on characters, as the row is valid UTF-8.
- LiveAttach.LiveAfterReplayIff: exact for the state the machine has; tab stops, character sets, insert and origin mode and margins are not in it, and would each add one condition. The converse leaves out wraps and half-read characters in one column, which may never show (`AttachLosses.OneColumnHidesTheWrap`).
- Attaching.JoinedSession: no resize after the join, because the client resizes its own terminal then.
- Terminal operations the replay does not print: besides cursor addressing, scroll regions and the saved cursor, which show what a replay leaves out, tabs, insert and delete are not modelled.
- Sessions.LiveSession.SubscribeWithScrollback: gives the number of chunks the snapshot covers; the snapshot itself is `Replay.SerializeReplay` of the terminal that consumed them (`Attaching.JoinedSession`).
- Pager.AnchoredIff: output that clears the scrollback and a resize while paging are not among the events, because no line numbers survive them.
- DrawnRows.CursorIsShown: for rows of printable ASCII and renditions that end in the default pen and have nothing reversed; `CursorSplice.SpliceShowsIff` says what happens inside a reversed run.
- Timers: settling delays, blink and poll intervals appear only as the order of events.
- Operating system: starting and killing processes, the size call on the tty, `ps` and `lsof`, sockets and HTTP. `parseProcTree` is left out; the search starts from a built tree with non-negative pids.
- Sessions.LiveSession.Resize: reports only whether the size was accepted, because the tty call behind it is outside the model.
- Pager.VtEmu.Write: the wake-up of a closed view is not modelled, because the loop ends with the view.
- Pager.VtEmu.Resize: the resized emulator is an arbitrary terminal of that size, because its reflow is library code; sizes are positive.
- Replay.DiffLaw: styles have two colors and five attributes; blink, conceal, strikethrough, underline kinds and RGB colors would add equal cases.
- HistoryWidth.HistoryFitsIff: a client that does not wrap cuts a wide line instead; the converse leaves out a full history, where a dropped line equal to its successor hides the difference, and one-column terminals, where a wide glyph prints nothing.
- Discover.UnmanagedSessions: gives the processes; their titles follow from `FirstWordBase`, their directories come from outside.
- Pipeline.Attach: the 8-slot channel of ownership updates may drop one, so agreement is stated at the daemon's writes and not at the client's parked flag.
- Interleavings inside one request, disconnect round or exit handler; see the assumptions.
- `updateLiveAgent` and the title watcher's comparison: only the broadcast they lead to is an event.
- Key encodings, button tables, labels, directory listing, styling and the browser's page code: easy members.

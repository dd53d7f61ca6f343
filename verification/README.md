# A verified model of PrimusClaw's connector and control plane

PrimusClaw lets a phone drive coding agents that run on a person's own machine. This project models, in Dafny 4.11,
the parts of it whose correctness is hard to see by reading: a messaging client that must neither lose nor double an
event although its files are written in the background and its process may die at any moment; the hand-off of prompts
to agents; the lock that keeps an agent in a mode that asks; the takeover of a conversation that a terminal may also
be writing to; a handful of compilers, parsers and mergers; a Kubernetes reconciler; and an ordered shutdown.
`dafny verify dfyconfig.toml` checks everything.

## How it is built

Where the source changes things step by step, the model does too: a class with the source's fields, or a method with
the source's loop, each proved equal to a function on values. Where the source is asynchronous, every `await` is a
point where anything else may happen: a run is a sequence of steps, a theorem quantifies over every legal sequence,
and an invariant made of small named predicates is carried through each step. Values that come from outside (clocks,
the order of a directory listing, what a disk, a server, an adapter or another process does) are parameters or steps.

| file | models |
|---|---|
| Wrappers, Text | a value that may be missing; lines and words of a text |
| Snapshot | `SnapshotFile`: a small file rewritten whole in the background |
| OutboxQueue, OutboxShed, OutboxLoad, Outbox | `Outbox` in memory: its operations, shedding and tracked bytes, `load`, and the class itself |
| OutboxRun, OutboxSafety, OutboxTheorems, OutboxLines, OutboxGap, OutboxTorn | the outbox with its disk queue, its server, crashes and restarts |
| Ledger, LedgerRepeat | `CommandLedger` with the server's commands, connector.json and restarts |
| Turns, TurnsRun, TurnsGap, Recover | when a prompt counts as handled; with the ledger; `recover` |
| Takeover | `guardedLaunch`, `watchTwins`, `preflight`, `runTurn` against other writers |
| Config, Modes | the approval settings of agents.toml; the ask-mode lock of a session |
| Regex, Glob | globs compiled to regular expressions |
| Json, Hooks, HooksLaws, HookCommand, HooksDoc | hook entries merged into and removed from settings.json |
| Quoting, ServiceFiles, ServiceHeaders | PATH in three service files, written and read back |
| Tail, Sse | two incremental readers |
| PromptCache, PromptCacheLaws | cache markers added to a model request |
| WarmPool | the warm-pool reconciler |
| Drain | the drain order of the control plane |

## What turned out not to hold

Each is kept as the code has it, with a concrete run or input and the exact condition.

- `forget` removes a session's log before it writes the meta file (connector/src/outbox.ts:292-301). A process that
  dies between the two and comes back reuses numbers: `OutboxGap.GapReusesNumber`. Outside that gap numbers are never
  reused, and a restart goes on from too low a number exactly when the session is in the gap and its meta file is
  older than a number handed out: `OutboxTheorems.ReuseExactlyInGap`.
- A session's first event is written as a line and then a meta file (connector/src/outbox.ts:176-182). If the meta file
  fails and the session's log is rewritten before the event is tried again, its landed line is gone, and a process that
  dies then has lost it: `OutboxTorn.TornLineIsLost`. That is the only way: a restart does not bring back a landed line
  that was neither shed, refused nor stored exactly when this happened to it,
  `OutboxLines.LandedIsLostExactlyWhenOvertaken`.
- A turn carried on after a restart gets a new record. If the connector stops before that record has landed, the
  record is dropped as if the prompt would be delivered again, although the cursor passed it in the run before
  (connector/src/session.ts:901-909): `TurnsGap.StopCanLoseATurn`. A continuation that fails before it is sent, without
  a word to the phone, loses its record too (connector/src/manager.ts:71-75, 290-293):
  `TurnsGap.WithdrawalCanLoseATurn`. And a prompt that is still accepted while the connector stops takes the record that
  the stopped turn of its session left (connector/src/session.ts:835-855, 952): `TurnsGap.NextPromptCanLoseATurn`. No
  other step breaks the promise: `TurnsRun.BrokenExactlyByCarelessness`.
- A `resume` that arrives while `preflight` looks on behalf of a queued prompt lets that prompt reach an agent that
  has not read the transcript, because a launch under way counts as a running adapter (connector/src/session.ts:963-969):
  `Takeover.ResumeBreaksExactlyWhileLooking`. So can a prompt that begins while an agent is being launched
  (connector/src/session.ts:421, 834), exactly when it begins before that agent runs, or before the transcript's size is
  noted, or when the size noted already takes in what the agent has not read: `Takeover.BeginBreaksExactlyWhenTooEarly`.
  A transcript whose size cannot be read is another way:
  `Takeover.VisitUnnoticedExactlyWhenUnreadable`.
- A command offered again after a reconnect can begin twice in one run, when an older one is still under way and 500
  later ones have ended: `LedgerRepeat.RedeliveryCanRepeat`, `Ledger.BeginsExactlyWhen`.
- `**` does not match a path with a line terminator: `Glob.DoubleStarStopsAtLine`, `Glob.DocumentedExactlyOnOneLine`.
- Removing the hooks does not bring back an empty `hooks` object or an empty list of a hooked event:
  `HooksDoc.EmptyHooksAreNotRestored`, `HooksDoc.UndoneExactlyWhenTidy`.
- A pod template that sets the pool label to something else makes the warm pool create pods it never counts, as
  `WarmPool.MislabelledPoolGrows` shows on a pool of one; one pass reaches its replicas exactly when the label is left
  alone or nothing is missing (`WarmPool.ReachesReplicasExactlyWhen`), and otherwise every further pass creates all that
  is missing again (`WarmPool.PassesPileUpExactlyWithoutLabel`).
- The comment on `runUntilSignal` says that any component ending before the signal is fatal. A component that ends
  without an error is not noticed: `Drain.QuietEndIsNotFatal`. The wait can end before the signal exactly when the
  router has sent its result or another component an error: `Drain.EndsEarlyExactlyOnError`.

## Model

| member | source | states |
|---|---|---|
| Snapshot.SnapshotFile.constructor | connector/src/statefile.ts:63-72 | nothing saved, written or awaited |
| Snapshot.SnapshotFile.Save | connector/src/statefile.ts:74-78 | the newest content and its number; a write starts if none is under way |
| Snapshot.SnapshotFile.Settled | connector/src/statefile.ts:84-95 | true at once when everything saved is on disk; otherwise a waiter for the newest save, and a failed write is tried again |
| Snapshot.SnapshotFile.WriteFinished | connector/src/statefile.ts:100-110 | the write is counted, exactly the waiters it settles are answered, the rest stay in order, and the next write starts |
| Snapshot.SpliceSettled | connector/src/statefile.ts:103-106 | the backward splicing loop leaves the waiters for later saves in order and answers the others |
| Snapshot.SoonerOrLater | connector/src/statefile.ts:103-106 | a finished write splits the waiters: each is answered or waits for a later save, never both |
| Snapshot.FileSafety | connector/src/statefile.ts:63-112 | in every interleaving the file holds exactly one whole save, number `written` (or the one just renamed), a wait answered true asked for nothing newer, and no waiter remains when no write runs |
| Snapshot.FileNeverGoesBack | connector/src/statefile.ts:97-111 | whatever happens later, the file holds the same save or a newer one |
| Outboxes.Outbox.constructor | connector/src/outbox.ts:105-143 | the queue, meta and bytes that `Load` makes of the directory |
| Outboxes.Outbox.Append | connector/src/outbox.ts:151-163 | the event gets the next number, is queued, counted, marked unwritten, its write queued; over the cap, the session is shed |
| Outboxes.Outbox.Shed | connector/src/outbox.ts:188-206 | the new queue, bytes, unwritten set and queued rewrite, exactly as the scan specifies |
| Outboxes.Outbox.Pending | connector/src/outbox.ts:224-231 | the longest prefix of the queue of written events, no longer than asked |
| Outboxes.Outbox.Ack | connector/src/outbox.ts:238-250 | everything up to the acknowledged numbers leaves the queue and the byte count, and each touched session settles |
| Outboxes.Outbox.Drop | connector/src/outbox.ts:253-260 | exactly the refused event leaves; the log is rewritten and the session settles |
| Outboxes.Outbox.Settle | connector/src/outbox.ts:262-278 | the acknowledged mark rises, an empty session's bytes are cleared, a closed one is forgotten, the right disk operation is queued |
| Outboxes.Outbox.MarkClosed | connector/src/outbox.ts:281-284 | the session is closed and, with nothing queued, forgotten |
| Outboxes.ShedLoop | connector/src/outbox.ts:189-202 | the loop computes `ShedScan` |
| Outboxes.AckLoop | connector/src/outbox.ts:239-248 | the filter computes what stays, the byte counts and the touched sessions in order |
| Outboxes.DropLoop | connector/src/outbox.ts:254-256 | the filter computes what stays |
| Outboxes.ScanLog | connector/src/outbox.ts:119-126 | the highest number of meta file and log, and the events above the acknowledged mark |
| Outboxes.LoadSession | connector/src/outbox.ts:112-139 | one session's meta and pending events |
| Outboxes.LoadAll | connector/src/outbox.ts:106-139 | all sessions' metas and pending events |
| Outboxes.CountBytes | connector/src/outbox.ts:142-142 | the bytes of each session's queue |
| OutboxQueue.PendingSpec | connector/src/outbox.ts:223-231 | what is handed out is a prefix of the queue, written, and stops only at the limit, the end or an unwritten event |
| OutboxQueue.AckKeepSpec | connector/src/outbox.ts:240-248 | an event stays exactly when no acknowledgement covers it |
| OutboxQueue.DropKeepSpec | connector/src/outbox.ts:253-256 | an event stays exactly when it is not the refused one |
| OutboxQueue.MineSpec | connector/src/outbox.ts:219-220 | a rewritten log holds exactly the session's queued, written events |
| OutboxShed.ShedsOldestFirst | connector/src/outbox.ts:187-206 | there is a point in the queue before which all the session's droppable events go and nothing else does, after which everything stays; the scan stops as soon as the total fits |
| OutboxShed.ShedPartition | connector/src/outbox.ts:192-201 | each event stays or goes once, and only droppable events of that session go |
| OutboxShed.ShedFitsOrKeepsOnlyOthers | connector/src/outbox.ts:187-206 | afterwards the session fits or holds nothing droppable |
| OutboxShed.AppendCovers | connector/src/outbox.ts:151-163 | after any append the tracked bytes cover every queue, and the session fits or has nothing left to drop |
| OutboxShed.AckCovers | connector/src/outbox.ts:238-278 | acknowledgements keep the tracked bytes at least the true size |
| OutboxShed.DropCovers | connector/src/outbox.ts:253-278 | so does a refusal |
| OutboxShed.MarkClosedCovers | connector/src/outbox.ts:281-301 | so does closing |
| OutboxLoad.LoadSpec | connector/src/outbox.ts:104-143 | exactly the logged events above the acknowledged mark come back, each session goes on from the highest number on disk, in time order, with exact bytes |
| OutboxLoad.SortedByTime | connector/src/outbox.ts:140-140 | the sort orders by time and then number and loses nothing |
| OutboxSafety.AppendKeeps | connector/src/outbox.ts:151-206 | an append in any reachable state keeps the whole invariant |
| OutboxSafety.LandKeeps | connector/src/outbox.ts:170-185 | so does every write that lands, of any operation, and what the operation does next |
| OutboxSafety.PostKeeps | connector/src/connector.ts:531-535 | so does posting a batch |
| OutboxSafety.DeliverKeeps | claw/packages/api/src/remote-agents/store.ts:675-722 | so does the server taking a batch, late or twice, refusing what it likes |
| OutboxSafety.AckKeeps | connector/src/connector.ts:535-536 | so does an acknowledgement of anything the server reached |
| OutboxSafety.RefusalKeeps | connector/src/connector.ts:537-543 | so does a refusal |
| OutboxSafety.CrashKeeps | connector/src/outbox.ts:105-143 | so does dying and loading, outside `forget`'s gap |
| OutboxSafety.StepKeeps | connector/src/outbox.ts:104-301 | every step of the machine keeps the invariant |
| OutboxTheorems.NumbersAreNeverReused | connector/src/outbox.ts:104-185 | two events ever handed out under one session and number are the same, and `load` would go on from at least every number handed out |
| OutboxTheorems.NothingIsLostOrDoubled | connector/src/outbox.ts:170-278 | at every moment, each event whose write completed and that was neither shed nor refused is stored or in the queue a restart rebuilds; the server holds one event a number |
| OutboxLines.StepLines | connector/src/outbox.ts:170-221 | every step keeps: a landed line that is still owed is in the log and waits to be tried again, unless its meta file failed and its log was rewritten since |
| OutboxLines.OvertakenWaits | connector/src/outbox.ts:170-185 | until the process dies or sheds it, an event whose line was rewritten away still waits to be tried again |
| OutboxLines.LandedIsLostExactlyWhenOvertaken | connector/src/outbox.ts:170-221 | at every moment, an event whose line landed and that was neither shed, refused nor stored is missing from what a restart rebuilds iff its meta file failed and its log was rewritten since; then it is a session's first |
| OutboxTorn.TornLineIsLost | connector/src/outbox.ts:176-221 | a run outside `forget`'s gap after which a restart finds nothing of a landed event |
| OutboxTheorems.StoredWithoutHoles | connector/src/outbox.ts:223-250 | everything still wanted below a stored number is stored |
| OutboxTheorems.TrackedBytesCover | connector/src/outbox.ts:151-206 | in every run tracked bytes are at least the true size |
| OutboxTheorems.ReuseExactlyInGap | connector/src/outbox.ts:292-301 | exactly when a restart would go on from too low a number |
| OutboxGap.GapReusesNumber | connector/src/outbox.ts:292-301 | a run in which two different events are posted under one number |
| Ledger.CommandLedger.constructor | connector/src/connector.ts:146-150 | the cursor and the remembered ids |
| Ledger.CommandLedger.Finish | connector/src/connector.ts:163-170 | the command is no longer under way, its id is remembered (the last 500 are), and the cursor rises to just below the lowest number under way |
| Ledger.Least | connector/src/connector.ts:168-168 | the smallest number of a set |
| Ledger.EndKeepsFlight | connector/src/connector.ts:163-170 | ending a command keeps: everything up to the cursor has ended, everything under way is above it |
| Ledger.StepKeeps | connector/src/connector.ts:607-626 | every step, a crash and a stale connector.json included, keeps the ledger's invariant |
| Ledger.CursorIsSafe | connector/src/connector.ts:132-171 | in every run the cursor is below everything under way, and every command at or below it, below what was reported, or below what a restart resumes from, has ended |
| Ledger.CursorNeverGoesBack | connector/src/connector.ts:163-170 | until a restart the cursor never decreases; what was reported never does |
| Ledger.BeginsExactlyWhen | connector/src/connector.ts:607-620 | an offered command begins iff it is above the cursor, not under way and not among the last 500 ends; one whose end is counted begins again only after 500 later ends |
| Ledger.BeginsFarApart | connector/src/connector.ts:607-620 | two begins of one command in one run lie its end and 500 further ends apart |
| Ledger.InOrderBeginsOnce | connector/src/connector.ts:607-620 | with nothing offered twice, commands begin once, in the order of their numbers |
| LedgerRepeat.RedeliveryCanRepeat | connector/src/connector.ts:152-170 | a run in which a command begins twice |
| Turns.SessionStore.constructor | connector/src/session-store.ts:52-58 | the turns found on disk |
| Turns.SessionStore.BeginTurn | connector/src/session-store.ts:131-134 | the session's record is replaced and a save made |
| Turns.SessionStore.MarkWaiting | connector/src/session-store.ts:137-144 | the record's marks, saved only when they changed |
| Turns.SessionStore.EndTurn | connector/src/session-store.ts:150-154 | the record goes, saved only when there was one |
| Turns.OneRound | connector/src/session.ts:902-909 | one round of the loop: hand on, give the record up, or ask again, and what becomes of the record and its file |
| Turns.RoundsAgree | connector/src/session.ts:902-909 | the machine's steps come to exactly what the round comes to |
| Turns.StepAccounts | connector/src/session.ts:835-909 | no step but one that drops the prompt's own record without a word takes it out of the saves that account for it |
| Turns.HandedAccounted | connector/src/session.ts:901-909 | whichever way a handler hands its prompt on, what is on disk and what will follow account for the prompt |
| Turns.StepSafe | connector/src/session.ts:835-909 | every step that does not silently drop an earlier run's record keeps all handled prompts accounted for |
| TurnsRun.HandlersMayEnd | connector/src/connector.ts:620-625 | a handler's command is always still under way when it ends it |
| TurnsRun.NeverNeither | connector/src/session.ts:893-909 | at every point of a run, a prompt that reached an agent and that the cursor has passed has its record on disk, or its turn ended, or its session closed, or it was refused on redelivery; else it is above the cursor |
| TurnsRun.BrokenExactlyByCarelessness | connector/src/session.ts:901-909 | the promise can break after a step iff that step, without a word, drops the record of a prompt that counts as handled or that its handler will count so: a stop that gives a carried-on turn up, a continuation withdrawn, a stopped turn's record taken by the next prompt |
| TurnsGap.StopCanLoseATurn | connector/src/session.ts:901-909 | a run that loses a prompt by a restart and a stop, nothing else out of the ordinary |
| TurnsGap.WithdrawalCanLoseATurn | connector/src/manager.ts:284-293 | a run that loses a prompt by a restart and a continuation that fails |
| TurnsGap.NextPromptCanLoseATurn | connector/src/session.ts:835-855 | a run that loses a prompt by a stop and the session's next prompt |
| TurnsGap.CrashCanGiveBoth | connector/src/session.ts:893-909 | a run after which the turn is found and its prompt begun again |
| Recover.Run | connector/src/manager.ts:275-304 | the loop over recorded turns: the events told, the prompts sent on, the records left |
| Recover.Recover | connector/src/manager.ts:275-313 | both loops: what they tell, send on and leave |
| Recover.ToldOnce | connector/src/manager.ts:262-313 | every session is told at most once that the connector is back, and exactly once iff it is active and had a turn or, having none, was used in the last four hours |
| Recover.EndsOrGoesOn | connector/src/manager.ts:262-304 | each turn is ended or carried on, never both and never neither, by exactly the stated conditions |
| Takeover.Session.constructor | connector/src/session.ts:119-127 | no agent, no size noted, nobody seen |
| Takeover.Session.Preflight | connector/src/session.ts:922-934 | an agent during whose turn another process was seen is dropped before the check |
| Takeover.Session.Checked | connector/src/session.ts:935-969 | refused: the agent goes; the size changed: the agent goes and the look begins again; otherwise the running agent is used or a launch made or joined |
| Takeover.Session.AfterTurn | connector/src/session.ts:885-888 | another process seen during the turn is remembered |
| Takeover.Session.GuardedLaunch | connector/src/session.ts:346-358 | nothing starts unless the check passes; the watch begins |
| Takeover.Session.Refuse | connector/src/session.ts:352-369 | no agent is left, and whoever waited for the launch is refused |
| Takeover.Session.AfterLaunch | connector/src/session.ts:362-375 | an agent during whose launch another process was seen is dropped; otherwise the memory of earlier visitors is cleared |
| Takeover.StepKeeps | connector/src/session.ts:346-961 | every fair step keeps: as long as the transcript has the noted size, the agent remembers all of it |
| Takeover.PromptedAgentsRememberAll | connector/src/session.ts:858-961 | in every fair run each prompt goes to an agent whose memory is the whole transcript |
| Takeover.BeginBreaksExactlyWhenTooEarly | connector/src/session.ts:339-421 | a prompt that begins during a launch can break that iff it begins before the agent runs, or before its size is noted, or after a size was noted that takes in what it lacks |
| Takeover.ResumeBreaksExactlyWhileLooking | connector/src/session.ts:963-983 | a `resume` can break that iff it comes while `preflight` is looking |
| Takeover.VisitUnnoticedExactlyWhenUnreadable | connector/src/session.ts:940-947 | after another process wrote between two turns, the old agent is prompted iff the size cannot be read now or could not be noted |
| Config.PresetsAsk | connector/src/config.ts:105-127 | every preset's ask mode is among its safe modes, its never mode is not |
| Config.ParseAgent | connector/src/config.ts:168-248 | a table is accepted iff the stated conditions hold, and the agent's modes mean what the table says |
| Config.AcceptedIsSound | connector/src/config.ts:181-211 | without the opt-in, the start mode and every mode a phone may choose are asking modes; unattended implies the opt-in; `never` implies unattended |
| Config.ParseAgents | connector/src/config.ts:164-248 | all tables: one sound agent each, ids distinct |
| Config.ExistingSessions | connector/src/config.ts:258-288 | each derived agent has its source's modes, a fresh id, and a directory nobody else reads |
| Config.Parse | connector/src/config.ts:164-254 | an accepted file's agents are all sound and distinct |
| Modes.Session.constructor | connector/src/session.ts:151-160 | the mode on record, or the ask mode when the record's is no longer allowed |
| Modes.Session.Choose | connector/src/session.ts:203-208 | a request is refused without the opt-in unless safe; otherwise it becomes the target |
| Modes.Session.StartEnforcing | connector/src/session.ts:539-544 | a mode not offered is refused; otherwise reports are collected afresh |
| Modes.Session.FinishEnforcing | connector/src/session.ts:551-559 | the mode is taken iff it was read back |
| Modes.Session.NoteMode | connector/src/session.ts:581-598 | a report is noted; outside an enforcement it becomes current, and one not allowed has to be undone |
| Modes.AllowedIsSafe | connector/src/session.ts:151-208 | for a sound agent every mode a phone may select, request or get back after a restart is safe to enter |
| Modes.StepKeeps | connector/src/session.ts:539-616 | every step, with several enforcements under way, keeps the lock's invariants |
| Modes.OnlyAskingModes | connector/src/session.ts:539-616 | in every run each mode asked of an adapter is an asking mode unless the owner opted in, and each successful launch read back the mode it had asked for, in a report made since |
| Glob.GlobToRegExp | connector/src/glob.ts:5-18 | the loop builds the text of `Body` between anchors |
| Glob.ParseBody | connector/src/glob.ts:5-18 | the text parses, as a regular expression, to the tree that was meant |
| Glob.TreeMatches | connector/src/glob.ts:4-20 | the tree matches exactly what the glob means, `**` staying within a line |
| Glob.CompiledExactly | connector/src/glob.ts:4-20 | the regular expression accepts a path iff the direct recursive reading of the glob does, for every glob and path |
| Glob.CompiledAsDocumented | connector/src/glob.ts:4-20 | on paths without line terminators `**` crosses anything |
| Glob.DocumentedExactlyOnOneLine | connector/src/glob.ts:4-20 | every glob works as documented on a path iff the path has no line terminator |
| Glob.DoubleStarStopsAtLine | connector/src/glob.ts:4-20 | a path with a line feed that `**` means and the expression does not accept |
| Glob.PlainGlobKeepsSegments | connector/src/glob.ts:4-18 | a glob without `**` matches only paths with as many slashes |
| Hooks.KeepHooks | connector/src/hooks.ts:109-116 | the inner loop keeps others, updates the first of ours, drops further ones |
| Hooks.InstallGroups | connector/src/hooks.ts:104-121 | the splicing loop computes the groups an install leaves |
| Hooks.FilterOthers | connector/src/hooks.ts:143-143 | the filter keeps exactly what is not ours |
| Hooks.RemoveGroups | connector/src/hooks.ts:139-148 | the backward splicing loop computes the groups an uninstall leaves, and whether any was ours |
| HooksLaws.InstalledOnce | connector/src/hooks.ts:102-122 | after an install an event has exactly one entry of ours; taking ours out gives what taking them out before would |
| HooksLaws.InstalledTwice | connector/src/hooks.ts:102-122 | installing an event's entry again changes nothing |
| HooksLaws.InstalledKeepsOthers | connector/src/hooks.ts:102-122 | every other entry stays, in order |
| HooksLaws.RemovedClean | connector/src/hooks.ts:139-148 | removing leaves none of ours, and changes nothing where there was none |
| HooksLaws.RemovedKeepsOthers | connector/src/hooks.ts:139-148 | every other entry stays, in order |
| HookCommand.EntryIsRecognised | connector/src/hooks.ts:23-42 | each entry install writes is found again as ours, alone or spread over an older one |
| HookCommand.WordsReadBack | connector/src/hooks.ts:183-185 | the status expression matches the command, and whatever it captures are the node and the script |
| HooksDoc.PlanIsSound | connector/src/hooks.ts:17-35 | the two hooked events are distinct and both entries are recognised again, for every node, directory and hook script |
| HooksDoc.InstallHooks | connector/src/hooks.ts:96-126 | the whole document, the refusals, and whether the file is written |
| HooksDoc.UninstallHooks | connector/src/hooks.ts:129-157 | likewise for removing; the file is written exactly when a planned event holds an entry of ours |
| HooksDoc.TouchedExactlyWhenOurs | connector/src/hooks.ts:136-149 | removing touches something exactly when there is something of ours |
| HooksDoc.InstallAddsOneEach | connector/src/hooks.ts:92-126 | one entry an event, others in order, every other event and setting untouched |
| HooksDoc.InstallTwice | connector/src/hooks.ts:96-126 | a second install changes nothing |
| HooksDoc.InstallRefused | connector/src/hooks.ts:77-88 | an install is refused iff `hooks` is not an object or a hooked event is not a list |
| HooksDoc.UndoneExactlyWhenTidy | connector/src/hooks.ts:96-157 | uninstall undoes install iff the document had no entry of ours and no empty hook container |
| HooksDoc.EmptyHooksAreNotRestored | connector/src/hooks.ts:96-157 | an empty `hooks` object is not there again after an install and an uninstall |
| Quoting.ShRoundTrip | connector/src/service.ts:292-292 | the shell escape unescapes to the value (and is a group of the expression) |
| Quoting.ShellReadsQuoted | connector/src/service.ts:292-292 | a shell reads the quoted word as the value |
| Quoting.SdRoundTrip | connector/src/service.ts:289-289 | the systemd escape unescapes to the value |
| Quoting.XmlRoundTrip | connector/src/service.ts:291-291 | the four passes of unescaping undo the four of escaping |
| Quoting.XmlReaderReads | connector/src/service.ts:291-291 | an XML reader reads the escaped text as the value |
| ServiceFiles.PathRecovered | connector/src/doctor.ts:514-533 | after any text that does not name PATH at a line start, the expression has a first match, and whatever that is, unescaping its capture gives the PATH written |
| ServiceHeaders.HeaderIsQuiet | connector/src/service.ts:294-354 | the texts the three templates put before the variables do not name PATH, whatever the node and cli paths are |
| ServiceHeaders.InstalledPathRecovered | connector/src/doctor.ts:514-533 | in a whole script, unit or plist as it is written, naming PATH, every first match unescapes to the PATH written |
| Tail.LastLineFeed | connector/src/attach.ts:974-974 | the last line feed, or none |
| Tail.TranscriptTail.constructor | connector/src/attach.ts:905-913 | nothing held |
| Tail.TranscriptTail.Take | connector/src/attach.ts:972-985 | what is handed on and what is held, as functions of the text |
| Tail.WholeLinesInOrder | connector/src/attach.ts:972-985 | for every cutting into chunks, the output is whole lines of the stream in order, lacking only empty ones and ones over the limit |
| Tail.CutsMakeNoDifference | connector/src/attach.ts:972-985 | with no line over the limit, every non-empty line comes out, once |
| Sse.ParseBlock | connector/src/sse.ts:33-50 | the loop over a block's lines computes its frame, or none |
| Sse.SseParser.Push | connector/src/sse.ts:18-30 | the frames of the blocks that ended, and the text left |
| Sse.EndStays | connector/src/sse.ts:22-22 | a block end found in a prefix of the stream is the first of the whole stream |
| Sse.ChunksMakeNoDifference | connector/src/sse.ts:15-30 | any cutting gives the frames and the leftover of one push of the whole |
| Sse.ReadAsWritten | connector/src/sse.ts:15-50 | any frames a server writes, cut anywhere, are read back exactly, with nothing left |
| PromptCache.CountExistingMarkers | deploy/litellm/prompt_cache_hook.py:160-185 | the markers of tools, functions, entries and blocks |
| PromptCache.InjectOnMessage | deploy/litellm/prompt_cache_hook.py:188-223 | the last block that takes a marker gets one if it has none; a string becomes one text block |
| PromptCache.InjectOnTools | deploy/litellm/prompt_cache_hook.py:243-261 | the last eligible tool gets a marker if it has none |
| PromptCache.Request.Inject | deploy/litellm/prompt_cache_hook.py:226-274 | the request after the hook |
| PromptCache.Request.InjectOnMessages | deploy/litellm/prompt_cache_hook.py:266-274 | the first of the three candidates that can carry a marker |
| PromptCacheLaws.NeverOverTheCap | deploy/litellm/prompt_cache_hook.py:151-274 | the count never falls, and never exceeds four unless the caller's already did |
| PromptCacheLaws.InjectTwice | deploy/litellm/prompt_cache_hook.py:226-274 | running the hook again changes nothing |
| PromptCacheLaws.NothingElseChanges | deploy/litellm/prompt_cache_hook.py:118-274 | at most one eligible tool and one eligible block gain a marker where there was none; everything else is as it was |
| WarmPool.IsPodTerminallyFailed | sandbox/extensions/controllers/sandboxwarmpool_controller.go:322-356 | exactly the stated failure states |
| WarmPool.SortNewestFirst | sandbox/extensions/controllers/sandboxwarmpool_controller.go:198-201 | sorted newest first, the same pods |
| WarmPool.Cluster.List | sandbox/extensions/controllers/sandboxwarmpool_controller.go:85-100 | exactly the pods with the pool's label, in any order |
| WarmPool.Cluster.Triage | sandbox/extensions/controllers/sandboxwarmpool_controller.go:102-144 | orphans adopted; active and failed pods told apart; others skipped |
| WarmPool.Cluster.DeleteEach | sandbox/extensions/controllers/sandboxwarmpool_controller.go:146-154 | exactly these pods are marked as going |
| WarmPool.Cluster.CreateEach | sandbox/extensions/controllers/sandboxwarmpool_controller.go:180-278 | that many new pods under fresh names |
| WarmPool.Cluster.ReconcilePool | sandbox/extensions/controllers/sandboxwarmpool_controller.go:82-215 | the whole pass: which pods it deletes as excess, how many it creates, and the cluster it leaves |
| WarmPool.OthersUntouched | sandbox/extensions/controllers/sandboxwarmpool_controller.go:107-130 | other controllers' pods, other pools' pods and pods already going are left as they are |
| WarmPool.ReachesReplicasExactlyWhen | sandbox/extensions/controllers/sandboxwarmpool_controller.go:82-278 | exactly the desired number of live, owned, healthy pods, and nothing left to do, iff the template keeps the pool label or nothing had to be created |
| WarmPool.MislabelledPoolGrows | sandbox/extensions/controllers/sandboxwarmpool_controller.go:226-278 | a pool of one whose template names another pool: a pass leaves none that counts and the next creates again |
| WarmPool.PassesPileUpExactlyWithoutLabel | sandbox/extensions/controllers/sandboxwarmpool_controller.go:82-278 | over any number of passes the uncounted pods grow by all that is missing each pass, or not at all when the label is kept |
| WarmPool.KeepsTheOldest | sandbox/extensions/controllers/sandboxwarmpool_controller.go:193-212 | no pod is kept that is strictly newer than one deleted as excess |
| WarmPool.SettledStays | sandbox/extensions/controllers/sandboxwarmpool_controller.go:82-215 | where there is nothing to do, nothing is created, deleted or changed |
| WarmPool.Twice | sandbox/extensions/controllers/sandboxwarmpool_controller.go:82-215 | a second reconcile creates and deletes nothing |
| Drain.RouterStep | sandbox/cmd/controlplane/shutdown.go:53-137 | every step of every goroutine keeps the router's result on its one way to the caller |
| Drain.OthersStep | sandbox/cmd/controlplane/shutdown.go:53-137 | and the other components' channel no fuller than there are components that have reported |
| Drain.RouterDrainsFirst | sandbox/cmd/controlplane/shutdown.go:35-137 | once draining, the shared context is cancelled only after the router has returned, and the result is exactly the router's error; before, a return is an error the router or another component sent |
| Drain.EndsEarlyExactlyOnError | sandbox/cmd/controlplane/shutdown.go:98-109 | before the signal the wait can end iff the router has sent its result or another component an error |
| Drain.QuietEndIsNotFatal | sandbox/cmd/controlplane/shutdown.go:89-109 | a run in which the only other component ends without an error and nothing ends the wait |
| Drain.NoReporterBlocks | sandbox/cmd/controlplane/shutdown.go:56-96 | no reporting goroutine can block, for any number of components |
| Drain.DrainGoesOn | sandbox/cmd/controlplane/shutdown.go:111-136 | once the router has returned the main goroutine can always go on |

## Left out

- HTTP, OAuth and device-flow clients, TLS setup, process spawning, adapter installation, command-line text.
- Uniqueness of `attachNew` claims, process-group ownership, pod adoption by claims: they rest on behaviour outside the code.
- Redaction, hint tables, doctor checks, audit logging, generated code, deployment scripts: lists of cases without a deep invariant.
- `TranscriptTail.backlog`, `fromEnd` and a shrinking file: they may start in the middle of a line. The decoder that keeps a character cut between two reads is not modelled; chunks are text.
- "Never both" in the turn hand-off: a crash after the record lands and before the command is marked handled gives both (`TurnsGap.CrashCanGiveBoth`), so only "never neither" is stated over runs.
- Outbox files: a log holds whole lines, a rewrite is atomic, session ids are file names, timestamps of a session never decrease, tombstones do not age.
- Outbox `after` promises and the size limits of `fitData`: an event's write may wait for anything already, and its size is a parameter.
- Turns: two turns never start in the same millisecond (the source compares ISO timestamps); a prompt keeps its session; `flushed` may be false at any time, which covers the two other state files.
- Takeover: a transcript piece has size one; the killed adapter writes nothing more; the recent-write refusal of `check` is only ever another refusal; starting the adapter's process, its reading of the transcript and what other processes do are steps of the machine, not methods.
- Takeover.PromptedAgentsRememberAll: for fair runs, that is, sizes can be read, every writer during a launch or turn is seen, none writes between the last look and the send, no `resume` comes during a prompt's look and no prompt begins too early in a launch; the last two are the exact conditions of `ResumeBreaksExactlyWhileLooking` and `BeginBreaksExactlyWhenTooEarly`.
- OutboxTheorems.NumbersAreNeverReused: for runs that do not die in `forget`'s gap; `ReuseExactlyInGap` says what happens there.
- OutboxTheorems.NothingIsLostOrDoubled: for the same runs; an event counts as written when its whole write completed (for a session's first event the line and the meta file). `OutboxLines.LandedIsLostExactlyWhenOvertaken` is the statement for every landed line.
- OutboxTheorems.StoredWithoutHoles: for the same runs.
- TurnsRun.NeverNeither: for runs without the careless steps of `BrokenExactlyByCarelessness`, the exact condition; a prompt refused when it is delivered again, or a continuation refused by name, counts as answered.
- Ledger: commands that expire on the server before they are delivered; every command stays until the cursor passes it.
- Config: TOML parsing, roots, environment, auto-allow rules and the bypass-argument test are one flag; preset names inherited from JavaScript's object prototype are unknown presets here.
- Modes: the wording and timing of reports and warnings; a launch that fails closes the session even where the source lets a signed-out one wait.
- Glob and the readers work on UTF-16 code units as `char`; regular expressions are the small part of the language the programs produce.
- Hooks: reading and writing the file, its indentation and mode; object members keep insertion order (JavaScript puts integer-like names first).
- ServiceFiles: what each template puts after the variables is any text; the paths of node and cli in a unit are of one line.
- PromptCache: the header switch, the model test and logging; a block `type` that is not a string counts as not markable (Python raises for an unhashable one); a request is a tree, so no object is shared.
- WarmPool: API calls succeed, a deleted pod stays as going, one clock reading a pass, `replicas` is not negative; the pool's status counters are not modelled.
- Drain: what the components' contexts make them do; a component may end at any moment.

# Verified model of the Herdr–Telegram bridge

The bridge keeps one Telegram forum topic per running agent, rebuilds what agents print from
overlapping screen snapshots, deploys arrangements of agents step by step through a remote canvas
(Wire), and turns numbered questions on a screen into buttons. This project models those parts in
Dafny and proves what they promise.

Every component has a specification module of values and functions, a module whose classes and
methods change state the way the program does and are proved equal to the specification, and lemmas
about the specification over every run:

| component | specification | classes and methods | results |
|---|---|---|---|
| screen history | `HistorySpec`, `CaptureSpec` | `History`, `Capture` | `HistoryLog`, `CaptureSpec` |
| topic mapping and reconciler | `MappingSpec`, `Telegram`, `ReconcilerSpec` | `Mapping`, `Reconciler` | `ReconcilerTruth`, `ReconcilerPending`, `ReconcilerStops`, `ReconcilerAges`, `ReconcilerConvergence`, `ReconcilerSilence`, `ReconcilerSweep`, `ReconcilerExamples` |
| provisioning | `DeployPlan`, `RelaySpec` | `Relay` | `RelaySafety` |
| debouncer, registry | `DebounceSpec`, `RegistrySpec` | `Debounce`, `Registry` | in the specifications |
| canvas documents | `ArrangementSpec`, `PartituraSpec` | `Partitura` (with `PartituraLoops`) | `PartituraRoundTrip` |
| dialogs and keyboards | `DialogSpec`, `KeyboardSpec` | `Dialog`, `Keyboards` | `DialogSpec`, `KeyboardSafety` |
| message splitting, log rotation | `Format`, `RotateSpec` | `Format`, `Rotate` | in the specifications |

`Text`, `Ordering` and `Agents` hold what they share. `dafny verify dfyconfig.toml` checks everything.

What stands outside the program is nondeterminism: Telegram, Wire and Herdr answer every call as they
like, a save may fail and leave the file old or new, the process may die while it saves or calls, and
goroutines interleave freely. Assumed of them: a failed Telegram call has no effect, a new topic or
message gets an id never used before and a new topic shows the name asked for after Telegram's own
clamping, the live list has distinct keys, agents are reported live until they are gone, stored keys
parse, and during one handler the clock and the reason for not writing stay as they are. Mapping keys
are the text form of agent keys.

## What does not hold as one might expect

- **A name may take two passes.** The gateway trims a topic name and cuts it to 128 UTF-16 units,
  the mapping cuts it to 128 runes and stores the name Telegram echoes. A clean pass reaches the
  desired state if and only if every live agent had an entry, has a name Telegram keeps as it is
  (`Format.NameKeptIff`), or got no name echoed when its topic was created
  (`ReconcilerConvergence.CleanPassSettlesIff`); under the same condition, and no other, the next
  pass is silent (`ReconcilerSilence.SecondPassIsSilentIff`). An agent whose name has 65 runes outside
  the basic plane does not meet it when Telegram echoes its name
  (`ReconcilerExamples.LongNameTakesTwoPasses`). Two clean passes always suffice
  (`ReconcilerConvergence.TwoCleanPassesSettle`).
- **The name of an entry may differ from that of its topic.** After an accepted rename they agree if
  and only if Telegram keeps the name sent (`ReconcilerTruth.SentNameAgreesIff`); after an accepted
  creation, if and only if it keeps the name or echoes the one it kept
  (`ReconcilerTruth.CreatedNameAgreesIff`); otherwise the topic has the clamped form. The agent above
  is an input for both: created without an echo its names differ
  (`ReconcilerExamples.UnechoedNameDiffers`), created with one they differ after the next edit
  (`ReconcilerExamples.RenamedToLongDiffers`). Over runs of agents whose names are kept they are equal
  (`ReconcilerTruth.NamesAgree`).
- **The exit of a muted agent is not told to Telegram.** It is the one handler that can make an entry
  lie, and its own entry only: it does if and only if writes are allowed, the topic exists, and the
  entry was not exited and closed already (`ReconcilerTruth.StepSoundIff`). Such a state is three events
  from an empty mapping: the agent appears, its topic is closed by hand, the agent exits
  (`ReconcilerExamples.MutedExitLies`). An entry lies only from then until an accepted status edit, and
  never while its agent is recorded live (`ReconcilerTruth.MappingTellsTheTruth`,
  `ReconcilerTruth.StatusEditTells`). The entry of a muted live agent does not record
  that its topic was closed by hand.
- **Mutation ids may collide.** Step names of a valid plan are distinct, but node `frame-a` and the
  frame step of node `a` share a mutation id; they are distinct if and only if no node is named like
  another one's frame or like an edge (`DeployPlan.MutationIdsDistinctIff`).
- **An export may be unreadable.** The prefix takes nine bytes, so an exported arrangement can be
  read back if and only if its name has at most 191 bytes (`PartituraRoundTrip.ExportReadsBack`); one
  of 192 bytes cannot (`PartituraRoundTrip.LongNameIsNotReadBack`).
- **Appending the same lines twice is a no-op** if and only if one of the first lines of the stable
  part has text; otherwise lines are committed twice (`HistorySpec.ReappendIsNoOp`,
  `HistorySpec.BlankScreenIsCommittedTwice`). Merge drops an identical text by its hash
  (internal/app/capture.go:173-176), so this is about texts that differ in trailing blanks only.
- **The live stream may skip lines**: a screen publishes all the lines it adds if and only if they fit
  the caps by themselves (`CaptureSpec.SlidePublishes`, `CaptureSpec.FirstScreenPublishes`). One read of
  400 lines that are rules across 240 columns does not (`CaptureSpec.WideScreenIsCutShort`).
- **A failed or blocked edit is not repeated** before the next pass or report: a status reported shows
  unless its edit is armed or due, as long as no editing event fails or is blocked
  (`ReconcilerPending.NothingForgotten`); a clean pass makes up for anything before it
  (`ReconcilerPending.PassCatchesUp`).
- **Empty log records do not count**: that each file keeps to the limit or holds a single record stays
  true in a write unless the record is over the limit and the live file has empty records only
  (`RotateSpec.StrictKeptIff`, `RotateSpec.EmptyRecordsDoNotCount`). It always holds when no record is
  empty (`RotateSpec.FilesStrictWithoutEmpty`), and the program's log handler writes none; in general a
  file over the limit holds one record beside empty ones (`RotateSpec.FilesKeepSuffix`).
- **One unit is too little**: pieces of a message fit for limits of at least two units
  (`Format.ChunksWithinLimit`), and not for one (`Format.OneUnitIsNotEnough`).

## Model

| member | source | states |
|---|---|---|
| HistorySpec.AppendKeepsValid | internal/domain/history.go:57-93 | for arbitrary screens: after every Append the byte counter is exact, both caps hold, the mark is inside committed, and committed ends as the previous stable screen does |
| HistorySpec.ReappendIsNoOp | internal/domain/history.go:57-93 | the same screen again changes nothing if and only if one of the first six stable lines has text; otherwise it commits lines twice |
| HistorySpec.BlankScreenIsCommittedTwice | internal/domain/history.go:57-93 | a screen of nine blank lines, shown twice, commits its stable line twice |
| HistorySpec.TrimRestoresCaps | internal/domain/history.go:155-176 | trimming an over-long history restores both caps and keeps a suffix |
| HistorySpec.UnalignedScreenIsMarked | internal/domain/history.go:71-93 | a screen that agrees with the last one at no shift is reported as a gap: committed becomes the end of what it was, one gap marker and the new stable lines, all of it when that fits the caps |
| HistoryLog.FindsTrueShift | internal/domain/history.go:193-216 | when no two non-blank lines of the two windows are equal, the first shift at which the overlap agrees is how far the screen really scrolled |
| HistoryLog.SlideTracks | internal/domain/history.go:57-93 | a window that slid forward reports no gap, the true shift and the true number of new lines, and committed stays the log from a base to the end of the stable part |
| HistoryLog.JumpTracks | internal/domain/history.go:71-93 | a window that shares no text with the last one reports a gap and all its lines as new, and committed goes on with one gap marker and the window |
| HistoryLog.RunTracks | internal/domain/history.go:57-176 | that holds after any run of screens that slide or jump, short screens and marks, whatever the caps dropped |
| HistoryLog.LinesRefineLog | internal/domain/history.go:98-136 | Lines is the log from the mark or the oldest line kept to the end of the screen, with one gap marker between two screens that share nothing, headed by a gap marker exactly when lines after the mark were dropped |
| History.History.Append | internal/domain/history.go:57-93 | the in-place merge with its shift search is the one the lemmas are about, result and new state |
| History.History.Mark | internal/domain/history.go:98-101 | the mark moves to the end of committed and forgets earlier truncation |
| History.History.CommittedTail | internal/domain/history.go:109-117 | the last n lines of committed, all of them when n is larger, none when it is negative |
| History.History.Lines | internal/domain/history.go:122-136 | reading builds what LinesRefineLog describes and changes nothing |
| History.History.Cut | internal/domain/history.go:147-152 | a cut drops the tail of committed and keeps counter and mark consistent |
| History.History.Trim | internal/domain/history.go:155-176 | the counting loop drops exactly as many lines as the caps demand |
| History.Aligned | internal/domain/history.go:193-216 | two stretches agree when their lines do and one of the first lines has text |
| CaptureSpec.SlidePublishes | internal/app/capture.go:170-188 | what a sliding screen publishes is exactly the new log lines, if and only if these fit the caps by themselves |
| CaptureSpec.JumpPublishes | internal/app/capture.go:170-188 | a screen that shares nothing with the last one publishes its stable part, if and only if that fits the caps |
| CaptureSpec.FirstScreenPublishes | internal/app/capture.go:170-188 | the first screen of an agent publishes its whole stable part if and only if that fits the caps |
| CaptureSpec.WideScreenIsCutShort | internal/app/consts.go:57-59 | a first screen of 400 lines of 240 three-byte runes, as many lines as one read asks for, is not published whole |
| CaptureSpec.StreamEmitsLog | internal/app/capture.go:147-188 | the live stream of any run of screens that slide or jump, short screens and marks, each screen adding lines that fit the caps by themselves, emits every log line and gap marker exactly once and in order; a jump is to a screen with text |
| CaptureSpec.MergePublishesTail | internal/app/capture.go:170-188 | for arbitrary screens, what merge publishes is the end of committed, headed by a gap marker when the screen could not be aligned |
| CaptureSpec.PauseMarksWhenLong | internal/app/capture.go:69-108 | a pause outside working, however many events it shows, counts as a human message exactly when it lasted the minimum |
| CaptureSpec.FirstWorkMarks | internal/app/capture.go:80-104 | an agent never seen working is marked when it starts, whether it was seen before or not |
| Capture.Capture.Merge | internal/app/capture.go:170-188 | one screen changes the history and last text of its own key only, and returns the published lines |
| Capture.Capture.Since | internal/app/capture.go:192-207 | a reader gets the history after the mark with the fresh screen merged in, and the lines to publish; a failed read changes nothing |
| Capture.Capture.Observe | internal/app/capture.go:69-108 | a status event changes the marks of its own key only; a gone agent is forgotten |
| Agents.KeyRoundTrip | internal/domain/mapping.go:54-60 | a key is read back from its text if and only if both parts are non-empty and the pane has no slash |
| Agents.ParsedKeyPrintsBack | internal/domain/mapping.go:54-60 | every text that parses prints back the same |
| Agents.ParseStatus | internal/domain/status.go:36-43 | no wire text, "exited" included, makes an agent exited |
| MappingSpec.DedupeKeepsOnePerThread | internal/domain/mapping.go:304-329 | whatever the map order, one entry per thread survives, unchanged |
| MappingSpec.SurvivorIsNewest | internal/domain/mapping.go:304-329 | and it is the one no other entry of the thread was changed after; of those changed at the same time a live one, then the first by key |
| MappingSpec.AnswerIsNewest | internal/domain/mapping.go:76-91 | a thread belongs to the same one |
| MappingSpec.DedupeKeepsAnswers | internal/domain/mapping.go:76-91 | dropping duplicates does not change which agent a thread belongs to |
| MappingSpec.AnswerUnique | internal/domain/mapping.go:76-91 | a thread has at most one answer, whatever the map order |
| MappingSpec.PruneLeavesLimit | internal/domain/mapping.go:233-262 | over the limit exactly max(limit, live entries) remain; only exited ones go, none newer than an exited one kept |
| MappingSpec.PruneIdempotent | internal/domain/mapping.go:233-262 | a second prune removes nothing |
| MappingSpec.StaleElements | internal/domain/mapping.go:268-285 | the sweep's candidates are exactly the exited, closed, over-age entries with a parseable key, oldest first, none twice |
| Mapping.Mapping.DedupeThreads | internal/domain/mapping.go:304-329 | the two loops leave exactly the newest entry of each thread and count the dropped |
| Mapping.Mapping.KeyForThread | internal/domain/mapping.go:76-91 | the answer is the newest entry of the thread, none only when its key does not parse or there is none |
| Mapping.Mapping.Prune | internal/domain/mapping.go:233-262 | the removal loop leaves what PruneLeavesLimit describes and counts the removed |
| Mapping.Mapping.Stale | internal/domain/mapping.go:268-285 | exactly the exited, closed, over-age entries with a parseable key, each once, oldest first and equally old ones by key |
| Mapping.Mapping.Link | internal/domain/mapping.go:115-123 | a new topic's entry carries the echoed name, the desired one when none is echoed |
| Mapping.Mapping.Apply | internal/domain/mapping.go:148-160 | a patch changes name and status of one entry and its time |
| Mapping.TopicView.Publish | internal/app/topicview.go:25-43 | the snapshot answers every parseable key and every thread as the mapping does |
| Mapping.TopicView.KeyForThread | internal/app/topicview.go:54-59 | a reader gets the agent that holds the thread in the mapping last published, none only when its key does not parse or no entry has the thread |
| Mapping.TopicView.Entry | internal/app/topicview.go:46-51 | a reader gets what the mapping last published holds for a parseable key |
| ReconcilerTruth.MappingTellsTheTruth | internal/app/reconciler.go:168-469 | over any run of events, edits, passes and sweeps, with every call free to fail, muted entries among the others and topics closed, reopened and deleted by hand: each entry says what its topic shows while that exists, unless it is recorded exited and has lied from the start or ever since an exit of its own that was not told; one entry per topic, live unmuted entries are open, and no created topic loses its entry except to a reported deletion or to pruning |
| ReconcilerTruth.StepSoundIff | internal/app/reconciler.go:382-410 | whatever the event and the error it meets, an entry that was true lies afterwards if and only if the event is its agent's exit while it is muted, not recorded as exited and closed, its topic exists and writes are allowed; without such an exit the whole mapping stays sound |
| ReconcilerTruth.ExitTellsUnlessMuted | internal/app/reconciler.go:382-399 | the same condition for one exit |
| ReconcilerTruth.StatusEditTells | internal/app/reconciler.go:345-378 | an accepted status edit of an unmuted entry makes it true again |
| ReconcilerExamples.MutedExitLies | internal/app/reconciler.go:382-390 | an agent appears, its topic is closed by hand, the agent exits: its entry lies |
| ReconcilerTruth.SentNameAgreesIff | internal/adapters/telegram/gateway.go:262-287 | after an accepted rename entry and topic have the same name if and only if Telegram keeps it |
| ReconcilerTruth.CreatedNameAgreesIff | internal/domain/mapping.go:115-123 | after an accepted creation they do if and only if Telegram keeps the name or echoes the one it kept |
| ReconcilerExamples.UnechoedNameDiffers | internal/app/reconciler.go:277-297 | an agent with a name of 65 runes outside the basic plane, created without an echo: entry and topic differ in name |
| ReconcilerExamples.RenamedToLongDiffers | internal/app/reconciler.go:345-378 | created with an echo they agree, and differ after the edit that follows |
| ReconcilerTruth.NamesAgree | internal/app/reconciler.go:168-469 | over runs of agents whose names Telegram keeps, every entry has the name of its topic |
| ReconcilerPending.NothingForgotten | internal/app/reconciler.go:168-221 | over any run in which whatever edits topics is allowed to and meets no failure: every live, unmuted entry of a known agent has the status and the name reported last (as Telegram clamped it or not), or its edit is armed or due |
| ReconcilerPending.EditCatchesUp | internal/app/reconciler.go:345-378 | after the edit of an agent its entry is up to date, and no other entry changed |
| ReconcilerPending.FlushCatchesUp | internal/app/reconciler.go:200-207 | after a flush nothing is armed and every entry is up to date but for the edits due |
| ReconcilerPending.PassCatchesUp | internal/app/reconciler.go:223-275 | after a clean pass every live, unmuted entry of a known agent is up to date, whatever was owed or had failed before |
| ReconcilerPending.ReportedHasTopic | internal/app/reconciler.go:168-192 | an agent reported live has a live entry from then on, up to date, muted or with its edit armed |
| ReconcilerPending.GoneIsFinished | internal/app/reconciler.go:168-192 | after the exit of an agent, without a failing call, its entry says exited and closed and nothing is armed for it |
| ReconcilerPending.ReopenedIsServed | internal/app/reconciler.go:454-469 | after a topic was reopened by hand its entry is unmuted; a live agent's is open and up to date, another one exited and closed again |
| ReconcilerPending.ForcedEditRewrites | internal/app/reconciler.go:345-378 | a forced edit is sent even when the entry looks right, and the topic then shows status and clamped name whatever it showed |
| ReconcilerStops.FatalEndsPass | internal/app/reconciler.go:223-275 | a pass makes no call after the first one answered without the right, with a bad token, another poller, a migrated chat or an ended context, and fails exactly then |
| ReconcilerStops.FatalEndsHandler | internal/app/reconciler.go:168-207 | so do registry events and flushes |
| ReconcilerStops.GoneIsForgotten | internal/app/reconciler.go:601-625 | when an edit or a close is answered that the topic is gone, its entry is forgotten, and no other |
| ReconcilerStops.BlockedIsSilent | internal/app/reconciler.go:168-275 | while writes are blocked no event makes a call or changes an entry |
| ReconcilerAges.ChangedIsStamped | internal/domain/mapping.go:100-190 | after any event every entry is as it was or carries the time of the handler that changed it |
| ReconcilerConvergence.CleanPassSettlesIff | internal/app/reconciler.go:223-275 | from any mapping, one unblocked pass without a failing call leaves threads unique, every live unmuted agent with a live entry at its name and status, and every other unmuted entry exited and closed, if and only if every live agent had an entry, has a name Telegram keeps, or got no name echoed |
| ReconcilerConvergence.EchoedPassSettlesIff | internal/domain/mapping.go:115-145 | when Telegram echoes every name: if and only if every new agent has a name Telegram keeps |
| ReconcilerConvergence.TwoCleanPassesSettle | internal/app/reconciler.go:223-275 | whatever the names, two clean passes do |
| ReconcilerSilence.SettledPassIsSilent | internal/app/reconciler.go:223-275 | in the desired state a pass makes no call and changes no entry, whatever Telegram would answer |
| ReconcilerSilence.SecondPassSilentIffSettled | internal/app/reconciler.go:223-275 | after a clean pass the next one does nothing when the desired state was reached, and makes a call when it was not |
| ReconcilerSilence.SecondPassIsSilentIff | internal/app/reconciler.go:223-275 | so it is idempotent if and only if every live agent had an entry, has a name Telegram keeps, or got no name echoed |
| ReconcilerSilence.SecondPassIsSilent | internal/app/reconciler.go:223-275 | when every agent without an entry has a name Telegram keeps, the pass after a clean one does nothing, even with writes blocked |
| ReconcilerExamples.LongNameTakesTwoPasses | internal/domain/mapping.go:115-145 | one agent named with 65 runes outside the basic plane, every name echoed: a clean pass over an empty mapping does not reach the desired state |
| ReconcilerSilence.TelegramShowsDesired | internal/app/reconciler.go:223-275 | after a clean pass from a sound mapping, unmuted entries of live agents are open and every unmuted topic that still exists shows its agent's status, open, under a name Telegram keeps, or, when the agent is gone, closed and, but for an exit not told before, exited |
| ReconcilerSweep.SweepAllOutcome | internal/app/sweep.go:40-80 | a candidate loses its entry exactly when its deletion was reached and answered deleted or already gone; all others stay |
| ReconcilerSweep.SweepDeletesOldestStale | internal/app/sweep.go:19-86 | a sweep deletes at most 50, oldest first, only exited, closed and over-age ones |
| Reconciler.Reconciler.SetReadOnly | internal/app/reconciler.go:150-165 | losing the right to write blocks the handlers; getting it back unblocks them unless they are paused or quiet |
| Reconciler.Reconciler.Handle | internal/app/reconciler.go:168-192 | one registry event has the specified effect on mapping, timers and Telegram |
| Reconciler.Reconciler.Create | internal/app/reconciler.go:277-343 | a new agent gets a topic, a returning one its old topic revived |
| Reconciler.Reconciler.Revive | internal/app/reconciler.go:299-331 | reopening, then the fresh name and icon; a topic reported gone is created anew |
| Reconciler.Reconciler.Edit | internal/app/reconciler.go:345-378 | the difference is sent, and recorded once it was accepted |
| Reconciler.Reconciler.Exit | internal/app/reconciler.go:382-410 | the exit is shown, recorded and the topic closed, muted ones recorded only |
| Reconciler.Reconciler.Finish | internal/app/reconciler.go:473-486 | the exited icon is sent whatever the mapping believes, then the topic closed |
| Reconciler.Reconciler.OnTopicClosed | internal/app/reconciler.go:432-449 | a topic closed by hand is muted while its agent lives, recorded as closed after |
| Reconciler.Reconciler.OnTopicReopened | internal/app/reconciler.go:454-469 | the mute is lifted, then a live agent's topic rewritten, an exited one's finished again |
| Reconciler.Reconciler.Close | internal/app/reconciler.go:412-427 | closed is recorded once Telegram accepted it |
| Reconciler.Reconciler.Fail | internal/app/reconciler.go:601-625 | a gone topic's entry is forgotten, fatal errors are returned, others ignored |
| Reconciler.Reconciler.Flush | internal/app/reconciler.go:200-207 | every armed edit runs now, in key order |
| Reconciler.Reconciler.Reconcile | internal/app/reconciler.go:223-275 | the pass: duplicates, orphans, unclosed topics, live agents in key order, pruning, stopping at a fatal error |
| Reconciler.Reconciler.Resync | internal/app/reconciler.go:217-221 | the pass with every live topic rewritten |
| Reconciler.Reconciler.Sweep | internal/app/sweep.go:19-86 | the deletion loop with its early stop has the outcome of SweepDeletesOldestStale |
| DeployPlan.StepNamesDistinct | internal/app/relay_deploy.go:211-362 | no two steps of a valid plan share a name |
| DeployPlan.CanonicalOrder | internal/app/relay_deploy.go:211-362 | the step sequence of a valid plan has exactly the steps the plan asks for, each once: place before nodes, nodes in plan order and each as role, node, frame, connections last and in order |
| DeployPlan.NameInjective | internal/app/relay_deploy.go:211-362 | a name determines its step |
| DeployPlan.MutationIdsDistinctIff | internal/app/relay_deploy.go:318-356 | the mutation ids of a plan are distinct if and only if no node is named like another's frame or like an edge |
| DeployPlan.FrameNameCollides | internal/app/relay_deploy.go:318-348 | a valid plan in which two are not |
| RelaySafety.RunKeeps | internal/app/relay_deploy.go:20-47 | every interleaving of steps, saves, crashes and restarts keeps the write-ahead invariant: the calls made are accounted for by the disk |
| RelaySafety.IssuedIsCanonicalPrefix | internal/app/relay_deploy.go:61-390 | over any run with crashes, failing saves and failing calls, the steps issued for a job are, in order and without repeat, a prefix of its plan's one step sequence, all of it once the job is done |
| RelaySafety.IssuedInOrder | internal/app/relay_deploy.go:61-390 | over any such run no step was issued before one it needs |
| RelaySafety.FrameAfterNode | internal/app/relay_deploy.go:315-352 | so a frame is issued only after its node, and a terminal only after its role |
| RelaySafety.ResultsNeverReplaced | internal/app/relay_deploy.go:20-47 | however the run goes on, recorded results stay and no issued step is issued again |
| RelaySafety.TopicAttemptedOnce | internal/app/relay.go:131-161 | creating a topic is attempted at most once per workspace and floor, ever |
| RelaySafety.EventAdmittedOnce | internal/app/relay.go:386-400 | an event key is admitted at most once in any 48 hours of non-decreasing time, crashes included |
| RelaySafety.OnceAdmits | internal/app/relay.go:386-400 | a key not remembered is admitted exactly when the save goes through; keys of the last 48 hours stay remembered, older ones do not |
| RelaySafety.EnsuredTopic | internal/app/relay.go:131-161 | a topic that is ensured has its thread, the old one if there was one, and the name asked for; a pending one is refused |
| RelaySafety.ScopeTellsApart | internal/app/relay.go:124-129 | workspaces without a slash and their floors have topics of their own |
| Relay.Relay.Save | internal/app/relay.go:109-122 | after one failed save none succeeds until a restart; a failed one leaves the file old or new |
| Relay.Relay.Once | internal/app/relay.go:386-400 | the admission is one atomic act, refused for a key still remembered |
| Relay.Relay.EnsureTopic | internal/app/relay.go:131-161 | the attempt is on disk before Telegram is asked; a pending one is never asked again |
| Relay.Relay.Step | internal/app/relay_deploy.go:20-47 | a kept result is returned without a call, anything else is pending on disk, called, and kept, in that order |
| Relay.Relay.Deploy | internal/app/relay_deploy.go:61-390 | the walk over the plan is a run of legal acts, and success means the job is done on disk |
| Relay.Relay.Place | internal/app/relay_deploy.go:211-227 | the workspace and floor steps come first, each only when the plan asks for it |
| Relay.Relay.Import | internal/app/relay_deploy.go:264-288 | the canvas before is kept once, then the one native step |
| Relay.Relay.Connect | internal/app/relay_deploy.go:353-359 | one step per connection, in order |
| Relay.Relay.PlaceNodes | internal/app/relay_deploy.go:315-352 | role, node and frame of each node follow the step sequence |
| DebounceSpec.RunKeeps | internal/app/debounce.go:41-95 | any interleaving of calls and goroutines keeps the invariant |
| DebounceSpec.StoppedNeverDelivers | internal/app/debounce.go:41-95 | a generation superseded, cancelled or drained never delivers, even when its timer fired before, ends once only, and no channel is closed twice |
| DebounceSpec.SchedulesAddUp | internal/app/debounce.go:41-95 | deliveries, other endings and generations still open add up to the schedules |
| DebounceSpec.AnyInterleaving | internal/app/debounce.go:24-95 | both from a new debouncer on |
| DebounceSpec.UntouchedIsKept | internal/app/debounce.go:41-95 | a timer that nobody reschedules, cancels or drains is not lost: it stays armed or on its way until it is delivered |
| DebounceSpec.ScheduledDelivers | internal/app/debounce.go:41-66 | a schedule arms a timer that delivers its key once it fires and its goroutine runs |
| Debounce.Debouncer.Schedule | internal/app/debounce.go:41-66 | the atomic effect of arming a timer, superseding the old one |
| Debounce.Debouncer.Enter | internal/app/debounce.go:50-65 | a woken goroutine goes on only when its generation is still stored |
| Debounce.Debouncer.Cancel | internal/app/debounce.go:69-80 | the atomic effect of a cancel, and whether there was a timer |
| Debounce.Debouncer.Drain | internal/app/debounce.go:84-95 | every armed timer is stopped and its key returned, sorted |
| RegistrySpec.SnapshotReplays | internal/app/registry.go:136-176 | the events of a snapshot turn the labels and statuses of the old table into those of the new |
| RegistrySpec.StepReplays | internal/app/registry.go:136-248 | so do those of every input; byPane keeps pointing each live pane to a live key of it |
| RegistrySpec.LogReplaysToState | internal/app/registry.go:136-248 | after any mix of inputs the whole log replays from nothing to the state, each key appearing, changing and going in that order |
| RegistrySpec.ListedMeans | internal/app/registry.go:140-146 | the table after a snapshot holds exactly the listed agents with a kind, each as listed last |
| RegistrySpec.StatusIsTaken | internal/app/registry.go:196-213 | a status report gives an agent of its pane the reported status and title and changes nothing else; without an agent a snapshot is asked for |
| RegistrySpec.UpdateIsTaken | internal/app/registry.go:215-248 | an update changes its agent to what it says, but for the name and the labels and directory it leaves blank |
| Registry.Registry.ApplySnapshot | internal/app/registry.go:136-176 | the loops replace the table and list the events the lemmas are about |
| Registry.Registry.ApplyStatus | internal/app/registry.go:196-213 | a status event changes its pane's agent, or asks for a snapshot |
| Registry.Registry.ApplyUpdate | internal/app/registry.go:215-248 | a pane update keeps what only snapshots know |
| Format.FitMeaning | internal/adapters/telegram/format.go:54-67 | the longest prefix within the limit of UTF-16 units (section 2.1 of RFC 2781), never empty |
| Format.ChunksFitAndRejoin | internal/adapters/telegram/format.go:23-50 | no piece is empty, each fits unless it is one rune, and with at most one newline after each they give back the text |
| Format.FirstPieceIsLongest | internal/adapters/telegram/format.go:23-50 | each piece is the longest that fits, cut back to the last newline of its second half if there is one, and the rest goes on after that newline |
| Format.ChunksWithinLimit | internal/adapters/telegram/format.go:23-50 | for limits of at least two, every piece fits |
| Format.OneUnitIsNotEnough | internal/adapters/telegram/format.go:23-50 | for one unit, a rune outside the basic plane does not |
| Format.NameKeptIff | internal/adapters/telegram/format.go:91-101 | a topic name is kept if and only if it is trimmed, not empty and within 128 units |
| Format.TopicNameIsLongest | internal/adapters/telegram/format.go:91-101 | a blank name becomes the default, any other is trimmed and cut to the longest prefix within 128 units |
| Format.Chunk | internal/adapters/telegram/format.go:23-50 | the loop yields those pieces |
| Format.FitUTF16 | internal/adapters/telegram/format.go:54-67 | the loop counts that prefix |
| Format.LastIndexRune | internal/adapters/telegram/format.go:69-76 | the last position of a rune, -1 without one |
| RotateSpec.FilesKeepSuffix | internal/adapters/logging/rotate.go:50-94 | from an empty start, oldest backup to live file together are a suffix of everything written, cut between records, in at most keep backups and the live file, each within the limit or holding one record beside empty ones |
| RotateSpec.WriteLosesOldestWhenFull | internal/adapters/logging/rotate.go:50-94 | a write loses exactly the oldest backup's records, and only when every backup exists, the live file is not empty and its size with the record is over the limit |
| RotateSpec.WriteMoves | internal/adapters/logging/rotate.go:50-94 | a record that fits, or comes first, is added and moves no file; any other one starts a new live file and every file becomes the next older backup |
| RotateSpec.StrictKeptIff | internal/adapters/logging/rotate.go:50-94 | with every file within the limit or of one record at most, a write keeps it so if and only if the record is not over the limit after empty records only |
| RotateSpec.FilesStrictWithoutEmpty | internal/adapters/logging/rotate.go:50-94 | when no record is empty, every file is within the limit or holds a single record, after any writes |
| RotateSpec.EmptyRecordsDoNotCount | internal/adapters/logging/rotate.go:56-62 | an empty record before an oversized one leaves two records over the limit |
| Rotate.RotatingWriter.Rotate | internal/adapters/logging/rotate.go:68-94 | removing and renaming one file at a time, counting down, moves every file up by one |
| Rotate.RotatingWriter.Append | internal/adapters/logging/rotate.go:50-64 | a write appends after a rotation when needed, and fails when closed |
| Rotate.RotatingWriter.Open | internal/adapters/logging/rotate.go:34-46 | the counter starts at the size of the file found |
| ArrangementSpec.EdgeKeyInjective | internal/domain/relay.go:202-215 | between valid ids the remembered text of an edge belongs to that edge only |
| ArrangementSpec.OnlyMatch | internal/adapters/maestri/arrangement.go:18-30 | there is one candidate if and only if one position among the presets matches, and it is that preset |
| ArrangementSpec.PresetsAsAsked | internal/adapters/maestri/arrangement.go:12-35 | presets resolve if and only if each terminal finds exactly one position with the id it asks for, or else its agent type, or else a default or typeless one; it gets the id and agent type of that preset and nothing else changes |
| Partitura.Validate | internal/domain/relay.go:166-217 | accepted if and only if names, counts, sizes, kinds and ends are in order, ids distinct and no edge repeated in either direction |
| Partitura.Sheet.ResolvePresets | internal/adapters/maestri/arrangement.go:12-35 | every terminal gets its one preset in a fresh array, up to the first without one; the caller's array stays as it was |
| Partitura.CollectCommands | internal/adapters/maestri/arrangement.go:44-51 | the last command of each preset a terminal uses |
| Partitura.DrawNodes | internal/adapters/maestri/arrangement.go:73-91 | nodes, roles and note texts of the document; refused for a terminal without a command |
| Partitura.DrawConnections | internal/adapters/maestri/arrangement.go:92-120 | connections by the kind of their far end, terminal first; refused without a terminal end |
| Partitura.NativePartitura | internal/adapters/maestri/arrangement.go:37-122 | the whole export, or none; the caller's arrangement and its nodes do not change |
| Partitura.ParsePartitura | internal/adapters/maestri/catalog.go:198-296 | the whole import, refused for unsupported parts, malformed nodes or an invalid result |
| PartituraRoundTrip.NodesKept | internal/adapters/maestri/catalog.go:230-280 | every drawn node is read back in its place with its kind's own fields, under its new id |
| PartituraRoundTrip.RegroupedKeepsEdges | internal/adapters/maestri/arrangement.go:92-120 | sorting the connections into three lists loses none, adds none and repeats none |
| PartituraRoundTrip.ConnectionsRead | internal/adapters/maestri/catalog.go:281-294 | the lists are read back as the same connections under the new ids |
| PartituraRoundTrip.ExportReadsBack | internal/adapters/maestri/catalog.go:198-296 | an export is read back if and only if the name leaves room for the prefix, as the same nodes in the same order and the same undirected edges under an injective renaming |
| PartituraRoundTrip.ExportedTerminal | internal/adapters/maestri/arrangement.go:44-80 | an exported terminal carries the agent type of the one preset it asked for and the command of the last preset with that id, which is not blank |
| PartituraRoundTrip.LongNameIsNotReadBack | internal/adapters/maestri/arrangement.go:121 | a valid arrangement under a name of 192 bytes is exported and cannot be read back |
| DialogSpec.RecognisedIsSound | internal/domain/choice.go:135-192 | a recognised dialog has 2 to 5 options with increasing digits 1 to 9, none a service entry or the free-text entry, each shown with its digit on one line |
| DialogSpec.RecognisedIff | internal/domain/choice.go:135-192 | a screen shows a dialog if and only if after its last item 1 come only items numbered without gaps, Submit rows and filler, with two to five options; those are the choices |
| DialogSpec.ChoiceLineIff | internal/domain/choice.go:228-238 | a line is an item exactly when it is drawn like one: blanks, perhaps the cursor, a digit from 1 to 9, a period, white space and a text |
| DialogSpec.TextEntryIsPreferred | internal/domain/choice.go:173-186 | the free-text entry is the first one of the preferred kind, none exactly without service entries |
| DialogSpec.SubmitLands | internal/domain/choice.go:72-88 | the arrows end on the Submit row, never leave the rows between cursor and it, and enter is pressed once, there |
| DialogSpec.SubmitStaysOnScreen | internal/domain/choice.go:147-172 | cursor and Submit row are the last such rows of the screen, so every row walked over exists |
| DialogSpec.ButtonsDecode | internal/app/outbound.go:1206-1220 | every button decodes to its own kind and number, and no two are alike |
| Dialog.ParseDialog | internal/domain/choice.go:135-192 | the backward search, the scan and the sifting loop recognise that dialog |
| Dialog.SubmitKeys | internal/domain/choice.go:72-88 | the two loops produce those keys |
| Dialog.ChoiceButtons | internal/app/outbound.go:949-964 | the loop draws those buttons |
| KeyboardSafety.OneFinalAnswer | internal/app/outbound.go:1072-1192 | over any run of presses, posts, redraws, typed texts, waits and failures, each question gets at most one final answer and at most one typed text, the latter only after its entry was chosen |
| KeyboardSafety.EventKeeps | internal/app/outbound.go:481-680 | every event keeps the invariant: a keyboard not waiting is unanswered, a wait belongs to a waiting keyboard, no two keyboards share a message |
| KeyboardSafety.ClosedForGood | internal/app/outbound.go:983-1050 | once its keyboard is gone, no key is sent and no text taken for a question again |
| KeyboardSafety.RetiredIsClosed | internal/app/outbound.go:983-995 | retiring and forgetting close the question |
| KeyboardSafety.SupersededIsClosed | internal/app/outbound.go:626-654 | so does a newer post, even one that fails |
| KeyboardSafety.PostedButtonsWork | internal/app/outbound.go:1072-1170 | under a fresh question, while the agent waits or its screen still shows it, every button sends the digit shown, or the keys that submit the dialog on the screen, and answers accordingly |
| KeyboardSafety.LatePressSendsNothing | internal/app/outbound.go:1072-1170 | once the agent waits for nothing a press sends no key and takes the keyboard off |
| KeyboardSafety.NewDialogIsPosted | internal/app/outbound.go:481-680 | a blocked agent with something new to say gets it posted, under a dialog with a keyboard that shows that dialog |
| KeyboardSafety.ToggledIsRedrawn | internal/app/outbound.go:875-899 | after a toggle the same question shows what the screen shows |
| KeyboardSafety.TextIsTakenInTime | internal/app/outbound.go:1008-1022 | after the free-text button a message is taken for the question exactly within ten minutes |
| Keyboards.Outbound.Press | internal/app/outbound.go:1072-1192 | a press has the specified effect on the maps, and the specified toast |
| Keyboards.Outbound.Fire | internal/app/outbound.go:481-680 | the redraw, the duplicate check and the post, as specified |
| Keyboards.Outbound.RefreshKeyboard | internal/app/outbound.go:875-899 | a redraw keeps message, mode and waiting, and drops itself when the dialog is gone |
| Keyboards.Outbound.Retire | internal/app/outbound.go:983-995 | the keyboard, its redraw and the wait it opened go together |
| Keyboards.Outbound.Forget | internal/app/outbound.go:457-467 | nothing stays of an agent that exited |
| Keyboards.Outbound.TakeTyping | internal/app/outbound.go:1008-1022 | an open wait is handed out once; an expired one is dropped with its keyboard |
| Keyboards.Outbound.CancelTyping | internal/app/outbound.go:1035-1042 | a command ends the wait and its keyboard |

## Left out

- OnTopicRenamed: a rename by hand goes to Herdr, and a failed one keeps the old name; runs with such renames are not part of the truthfulness theorem. A topic closed or reopened by hand and the handler that hears of it are one step.
- Debounce timers of the reconciler as times: an armed edit is a key in a set that may fire at any moment; status icons and their fallbacks are the status itself.
- Save failures of the mapping: they are logged and ignored by the program, so the model keeps the mapping in memory only.
- ReconcilerTruth.MappingTellsTheTruth: blocking and the clock do not change within one handler, because the program reads them once or within moments of each other; agents are reported live until they are gone, and topics are not renamed by hand.
- Mapping.TopicView.Publish: says what a published snapshot answers. Between handlers readers see the mapping as it is, with one exception that every handler of Reconciler bounds: a returning agent's topic was gone and creating a new one failed, so its forgotten entry stays visible until the next publication.
- Relay.Relay.Deploy: checks, reads and waits between steps are one nondeterministic stop; the canvas comparison after a native arrangement and the parsing of results are in it.
- ImportRequired, locked workspaces, plans by a language model and the relay's feed: only the steps and their order are modelled.
- DebounceSpec.AnyInterleaving: safety only; that a timer fires and the due channel has room is liveness, and the channel is the sequence of deliveries.
- Registry snapshots as socket reads and their rate limit; only their effect on the table.
- JSON encoding, malformed JSON and the constant members of an exported document; stableID is a function that tells apart the texts one document hashes, since SHA-256 cannot be injective.
- NaN and infinite geometry: coordinates are real numbers; URL syntax is a predicate the caller supplies.
- Error texts: a refused validation, export or import is a plain refusal.
- Strings are sequences of Unicode scalar values; text that is not valid UTF-8 is not modelled.
- Redaction, HTML escaping, keycaps and cut labels on buttons, reactions, turns, the pager, quiet mode, delayed captures and reply transcripts: a fire either has a text to post or not, whatever the reason.
- Keyboards.Outbound.Fire: captures, announcements and timers are not part of the state, because no final answer depends on them.
- File errors during a rotation, and a live file removed by someone else.
- Options, dashboard, doctor, setup, presence, process control and the clients of Telegram, Herdr and Wire: plumbing or formatting.

# Podiom's daemon, modelled and proved in Dafny

This project models the parts of Podiom's daemon where several parties change
shared state, and proves what those parts promise.

* **The Codex app-server client.** `CodexClient.dfy` is a transition system with
  one action for each mutex-held section of the client and one for each channel
  send a reader performs after releasing the mutex. `CodexRuns.dfy` proves what
  every run guarantees to a call and `CodexTurns.dfy` what it guarantees to a
  turn. `CodexObject.dfy` is the client as an object whose methods update its
  fields, each method keeping the invariant and proved equal to its action.
  `StreamTurn.dfy` holds the loop that streams a turn, `StreamMessages.dfy` says
  what such a turn shows, and `StreamViews.dfy` has the whole-turn views of
  reasoning and billing it agrees with.
* **Goal working memory.** `GoalMemory.dfy` (the merge), `MemoryRepair.dfy`
  (rebuilding and trimming) and `MemoryStore.dfy` (commits and repairs over whole
  runs, and the feedback receipts that cite items).
* **config.yaml.** `ConfigTree.dfy` proves that edits of a flat key/value list act
  as an ordered map; `ConfigEditor.dfy` and `ConfigProfiles.dfy` state the edits;
  `ConfigFile.dfy` has the index loops and in-place filters.
* **Goals.** `GoalLifecycle.dfy` (status, review clock, timeline replay),
  `GoalRaces.dfy` (operations that overlap), `GoalMetrics.dfy` (metric deltas) and
  `GoalRecord.dfy` (the stored goal as an object).
* **Dreams.** `Dreams.dfy` (the interleaved steps), `DreamRuns.dfy` (edits,
  backlogs and failures) and `DreamCore.dfy` (the object).
* **Smaller algorithms.** `ProjectFiles.dfy` (replacing a directory),
  `ProjectIds.dfy` (fresh ids), `EnvOverlay.dfy` (environment overlay),
  `Tails.dfy` (bounded tails), `PlanPaths.dfy` and `PlanGate.dfy` (plan approval).
* `Seqs.dfy`, `Text.dfy` and `Decimal.dfy` hold what they share.

Strings are sequences of code points. Clocks, the network, the model's replies,
the outcome of each system call and the size of an encoded document are
parameters, so each theorem holds for all of them.

`dafny verify dfyconfig.toml` checks everything.

## What turned out false

Some properties one would expect of the source do not hold in general. The model
follows the code; each property has a lemma with an input on which it fails, and
one that says exactly when it holds.

* Two notifications of one turn can arrive in the wrong order while the reader of
  a replaced process is still at work (`CodexTurns.TwoReadersCanReorder`;
  `CodexTurns.OrderHoldsExactly`).
* Streamed reasoning lacks a newline between neighbouring items that share an id
  (`StreamViews.ANewlineIsMissing`), and shows blank items that the completed turn
  does not (`StreamViews.ABlankItemIsStreamed`);
  `StreamViews.StreamedReasoningIsTheWhole` is the exact condition.
* A repair that starts from an undecodable document can drop items that accepted
  feedback cites (`MemoryStore.AnUnreadableRepairForgets`;
  `MemoryStore.CitedItemsSurviveExactly`, `MemoryRepair.RebuildRemembersExactly`).
* `removeProfile` after `upsertProfile` leaves an empty `profiles` list in every
  document that had none (`ConfigProfiles.AnEmptyListStays`;
  `ConfigProfiles.RemoveAfterUpsert`).
* `upsertProfile` reports a change for an unknown provider even when there is none
  (`ConfigProfiles.AnUnknownProviderReports`; `ConfigProfiles.UpsertReportIsExact`).
* `setGlobal` on a `global` key that is not a mapping writes settings nothing can
  read back (`ConfigEditor.SettingsUnderAScalar`; `ConfigEditor.SettingsReadBack`).
* Advancing the review clock of a goal that is not active gives it a next review
  (`GoalLifecycle.AStrayClock`; `GoalLifecycle.ClockHoldsExactly`).
* A user's edit of the memory file between a dream's check and its write is
  overwritten, although the comment there says an edit made while the model was
  thinking never is (`DreamRuns.AnEditIsLost`;
  `DreamRuns.WriteReplacesWhatWasRead`).
* A dream whose marking of sessions fails has already written the memory, and one
  whose journal row cannot be closed or read back has marked its sessions too,
  although the comment on dreaming says any failure leaves both untouched
  (`DreamRuns.AFailureLeavesItsMemory`, `DreamRuns.AFailureLeavesItsMarks`;
  `DreamRuns.FailuresTouchNothingExactly`).
* An operation on a goal that overlaps another one stores a stale row, and can put
  back a status the timeline has left behind (`GoalRaces.AProposalIsUndone`;
  `GoalRaces.RecordsHoldExactly`).
* A staged file named like one of the skipped families replaces an entry of that
  name, and a second replacement in the same second overwrites the first one's
  backup (`ProjectFiles.AStagedNameLoses`, `ProjectFiles.AnEarlierBackupLoses`;
  `ProjectFiles.LossExactly`).

## Model

| member | source | states |
|---|---|---|
| `CodexProtocol.StepKeepsInv` | internal/adapter/codex.go:569-979 | every mutex-held section and every send performed outside it keeps: no process means no pending call and not initialized; each pending call has a free channel; each owed response names a call nobody else will answer; watched turns and held backlogs are disjoint; every channel stays within its capacity |
| `CodexProtocol.EveryRunKeepsInv` | internal/adapter/codex.go:569-979 | the same for every interleaving of calls, responses, cancels, resets, restarts, registrations and reader exits |
| `CodexProtocol.LaunchKeepsInv` | internal/adapter/codex.go:618-658 | starting a process gives it a reader of its own and keeps the invariant |
| `CodexRuns.CallSendsNeverBlock` | internal/adapter/codex.go:660-691 | in every run: without stdin nobody is pending and the client is not initialized; at most one reply is ever sent on a call channel of capacity one, so no reply blocks a reader |
| `CodexRuns.StaleExitChangesNothing` | internal/adapter/codex.go:734-738 | the exit of an older process's reader changes nothing for a newer process |
| `CodexRuns.ResultsReachTheirCall` | internal/adapter/codex.go:660-691 | a response a call returns carries the id that call wrote and comes from the process it was written to, across any number of restarts, if processes answer only what was written to them |
| `CodexRuns.IdsAreNeverReused` | internal/adapter/codex.go:666-668 | an id once written is never written again, because resets keep the counter |
| `CodexRuns.FailuresTellEveryone` | internal/adapter/codex.go:703-739 | in every run: a reset, or the end of the current process's reader, leaves no process and nobody waiting; every call that waited has exactly the one failure as its reply, replies already there stay, and each watched turn with room has the failure once |
| `CodexRuns.EveryCallIsSettled` | internal/adapter/codex.go:660-691 | at every moment of every run each call whose request was written is in exactly one state: it waits, it gave up while it waited, a reader owes it the response, or it has exactly one reply |
| `CodexRuns.EveryReplyIsCaused` | internal/adapter/codex.go:660-739 | in every run each reply goes back to a moment at which the call waited: a response with its id, which keeps its body, or a reset, or the end of the current process's reader |
| `CodexTurns.TurnReceivesEveryKeyedNote` | internal/adapter/codex.go:1127-1157 | as long as no notification of a turn is dispatched while a reader still holds a different one for it, the turn's channel carries the last at most 256 notifications from before its registration and then every later one, in arrival order, none missing in between, and all of them once nobody holds one |
| `CodexTurns.OrderHoldsExactly` | internal/adapter/codex.go:825-866 | a turn receives its notifications in arrival order, at every moment of a run and however its readers then finish their sends, if and only if none was ever dispatched while a reader still held a different one for the turn |
| `CodexTurns.NothingIsLostOrDoubled` | internal/adapter/codex.go:825-866 | with any number of readers, each notification of a registered turn is on its channel or held by a reader exactly as often as it arrived |
| `CodexTurns.SoleReaderIsGuarded` | internal/adapter/codex.go:703-739 | one reader for the turn meets that condition |
| `CodexTurns.TwoReadersCanReorder` | internal/adapter/codex.go:825-866 | a concrete run, with the reader of a replaced process still at work, delivers two notifications of one turn in the wrong order |
| `CodexTurns.ReplayComesFirstAndFits` | internal/adapter/codex.go:1127-1157 | the replay is a prefix of everything the channel ever carries, a held account event leads it, and its length is within the channel's capacity, so registering never blocks |
| `CodexTurns.LogsOnlyGrow` | internal/adapter/codex.go:825-888 | nothing sent to a turn is taken back or reordered by any later step |
| `CodexObject.CodexClient.StartProcess` | internal/adapter/codex.go:618-658 | keeps the client's invariant; the process is a new one whose reader owes nothing, and nobody waits for it yet |
| `CodexObject.CodexClient.WriteRequest` | internal/adapter/codex.go:660-681 | keeps the invariant; the id is a new one, registered unless the write failed |
| `CodexObject.CodexClient.AbandonRequest` | internal/adapter/codex.go:683-688 | keeps the invariant; the other calls go on waiting, and a response to this one that still comes changes nothing |
| `CodexObject.CodexClient.FinishInitialize` | internal/adapter/codex.go:603-616 | keeps the invariant; the client is initialized only while a process is there |
| `CodexObject.CodexClient.DispatchResponse` | internal/adapter/codex.go:808-823 | keeps the invariant; the response is owed to the call waiting for it, by this reader only and without blocking, and one nobody waits for changes nothing |
| `CodexObject.CodexClient.DispatchNotification` | internal/adapter/codex.go:825-866 | keeps the invariant; routes a keyed notification to its watcher, or keeps the last 256 for a turn not yet registered |
| `CodexObject.CodexClient.DispatchAccount` | internal/adapter/codex.go:868-888 | keeps the invariant; an account event goes to every watched turn once, or is held when there is none |
| `CodexObject.CodexClient.DispatchThreadStarted` | internal/adapter/codex.go:890-914 | keeps the invariant; a child thread is announced to one watched turn of its parent thread, if there is one |
| `CodexObject.CodexClient.FailPending` | internal/adapter/codex.go:969-972 | the draining loop leaves nobody waiting, gives every call that waited exactly the one failure as its reply, and leaves every other call's replies alone |
| `CodexObject.CodexClient.FailWatchers` | internal/adapter/codex.go:973-978 | the loop offers the failure once to each watched turn, without blocking |
| `CodexObject.CodexClient.FailLocked` | internal/adapter/codex.go:963-979 | keeps the invariant; no process is left, every call that waited has exactly the one failure, and each watched turn with room has it once |
| `CodexObject.CodexClient.ResetConnection` | internal/adapter/codex.go:952-961 | keeps the invariant; every call that waited is told "connection reset", once, and so is each watched turn with room |
| `CodexObject.CodexClient.ReaderExited` | internal/adapter/codex.go:703-739 | keeps the invariant; when the current process's reader ends, every call that waited is told "stream ended", once, and so is each watched turn with room; any other reader only disappears |
| `CodexObject.CodexClient.RegisterWatcher` | internal/adapter/codex.go:1127-1157 | keeps the invariant; registering equals the protocol step, replay included |
| `CodexObject.CodexClient.UnregisterWatcher` | internal/adapter/codex.go:1159-1165 | keeps the invariant; the channel and the other turns stay as they are, and what comes for the turn from then on is held back |
| `StreamTurn.UsageOf` | internal/adapter/codex.go:2277-2302 | a billed request counts cached input once: input plus cache reads is the larger of the reported input and cached counts |
| `StreamTurn.Run` | internal/adapter/codex.go:1167-1310 | the loop with its local trackers shows exactly the first events of the turn, as many as the caller's context lasts for; what those events are, the `StreamMessages` and `StreamViews` rows say |
| `StreamTurn.React` | internal/adapter/codex.go:1196-1307 | the switch over one notification sends and remembers what the notification-wise step says, and ends the turn when that does |
| `StreamTurn.SendAll` | internal/adapter/codex.go:1181-1185 | events are sent in order until one send fails, and then no more |
| `StreamMessages.TurnClosesOnce` | internal/adapter/codex.go:1238-1283 | a turn closes once, with the notification that ends it: a completed turn shows the newline-joined texts of its non-blank agentMessage items in a working phase, unless some were streamed, then those of its non-blank agentMessage items in phase final_answer, each only if there are any, and is done; an error is reported by its kind; a broken stream shows its reason |
| `StreamMessages.OpenTurnsDoNotClose` | internal/adapter/codex.go:1167-1310 | a turn that has not ended shows no message, error or end |
| `StreamMessages.AnswerIsStreamed` | internal/adapter/codex.go:1197-1216 | the assistant deltas are exactly the non-empty deltas without a phase or in phase final_answer, in order, up to the end of the turn |
| `StreamMessages.ItemsArePassedOn` | internal/adapter/codex.go:1217-1289 | activities, tool uses, plans and rate limits are passed on in the order they came, up to the end of the turn |
| `StreamMessages.ContextIsShown` | internal/adapter/codex.go:1290-1297 | the context is shown as used tokens of a window for each usage notification that has both, the provider's own total first |
| `StreamViews.StreamedReasoningIsTheWhole` | internal/adapter/codex.go:1197-1216 | the concatenated reasoning deltas equal the reasoning of the completed turn, which leaves blank items out, if and only if neighbouring items that are not blank have different ids and each blank one is a lone newline between two that are not, all three with one id |
| `StreamViews.NeverBoth` | internal/adapter/codex.go:1252-1258 | no turn, wherever its caller stops reading, shows both reasoning deltas and the whole reasoning message |
| `StreamViews.BillsAreTheRecords` | internal/adapter/codex.go:1290-1306 | the billed usages are exactly those at the strict left-to-right maxima of the cumulative totals that carry usable usage |
| `StreamViews.RepeatsAreNotBilled` | internal/adapter/codex.go:1290-1306 | inserting a token-usage notification whose total does not advance, or that comes after the turn has ended, anywhere, leaves the bill unchanged |
| `StreamViews.ANewlineIsMissing` | internal/adapter/codex.go:1207-1209 | a concrete turn whose two reasoning items share an id streams their texts run together |
| `StreamViews.ABlankItemIsStreamed` | internal/adapter/codex.go:2074-2089 | a concrete turn with a blank item and three different ids streams that item, and the completed turn does not report it |
| `StreamViews.GluedLosesOneNewlinePerRepeat` | internal/adapter/codex.go:1207-1209 | each repeated neighbouring id costs the streamed text exactly one newline, against all the items' texts joined |
| `GoalMemory.MergeItems` | internal/core/goal_memory.go:234-280 | the map and order-list loops and the rebuild in place compute the ordered-map merge, or the first error |
| `GoalMemory.IndexItems` | internal/core/goal_memory.go:234-239 | the map and the order list stand for the document's items |
| `GoalMemory.UpsertItems` | internal/core/goal_memory.go:240-263 | the upserts put each item where its id is, or at the end |
| `GoalMemory.RetireItems` | internal/core/goal_memory.go:264-276 | a retirement flags its item and never removes it; an unknown id is an error |
| `GoalMemory.MergeKeepsAndAppendsIds` | internal/core/goal_memory.go:234-280 | every old id keeps its place, new ids follow in the order of their first mention, ids stay unique and none disappears |
| `GoalMemory.MergePatchesEachItem` | internal/core/goal_memory.go:240-280 | under each id the merge leaves its last upsert, or else the old item, retired by its last retirement; an unmentioned item is untouched |
| `GoalMemory.MergedItemsCameFrom` | internal/core/goal_memory.go:240-280 | each item of an accepted merge shows, field by field, the trimmed texts of its last upsert and the run, or the old item; and is retired with the trimmed reason and the run exactly by its last retirement |
| `GoalMemory.MergeIsAcceptedExactly` | internal/core/goal_memory.go:240-276 | a merge is accepted if and only if every upsert has an id of 1 to 80, a known kind, a title of 1 to 120 and details of at most 240 characters, trimmed, and every retirement a known id and a reason of 1 to 240 |
| `MemoryRepair.Rebuild` | internal/core/goal_memory.go:340-423 | the repair's loops compute the trimmed draft, or refuse; what they compute says where the goal stands, keeps the old items and plan, adds only steps of the whole plan and items of the timeline, in order and the items only once the plan is whole, and fits 32 KiB |
| `MemoryRepair.TrimmingDropsTheFewest` | internal/core/goal_memory.go:411-423 | trimming ends within the byte budget or refuses; among all allowed ways to drop added items from the end, and plan steps only after them, none that fits keeps more; it refuses only when nothing allowed fits |
| `MemoryRepair.RepairPreservesAndFits` | internal/core/goal_memory.go:340-423 | the old items and old plan stay as prefixes, ids stay unique, at most 40 items are added, the plan grows to at most 20 steps, and the result fits 32 KiB or there is none |
| `MemoryRepair.RepairAddsOnlyHistory` | internal/core/goal_memory.go:380-405 | every item a repair adds stands for a saved progress entry |
| `MemoryRepair.TrimmingKeepsExactly` | internal/core/goal_memory.go:411-423 | an item outlasts the trimming if and only if it is an old one, or a document that keeps it and the whole plan fits |
| `MemoryRepair.RebuildRemembersExactly` | internal/core/goal_memory.go:349-423 | a rebuild with no readable document holds an id if and only if it is among the first 40 distinct progress entries with something to say and the draft cut behind it, or further on, fits |
| `MemoryRepair.DraftPlan` | internal/core/goal_memory.go:362-411 | the draft's plan is the old one followed by the first new non-empty shortened texts, each once and up to 20 steps in all, of the open task titles, "Run schedule " with each schedule, and the plan changes; if it is then still empty, it is the shortened next step |
| `MemoryRepair.DraftStands` | internal/core/goal_memory.go:349-404 | the draft's current state is the old one if that is neither blank nor the placeholder, else the first progress entry with something to say, else the placeholder |
| `MemoryRepair.RepairRecalls` | internal/core/goal_memory.go:340-423 | the same of what is left after trimming, for all evidence and sizes |
| `MemoryStore.GoalMemoryTable.Commit` | internal/core/goal_memory.go:191-317 | keeps the memory sound and every cited item in place; an accepted commit is a proper one and stores the revision after the old one, the trimmed state, steps and outcome, the run, the items field by field and the receipts; a refusal changes nothing and gives the error of the first failing test |
| `MemoryStore.GoalMemoryTable.Repair` | internal/core/goal_memory.go:322-437 | keeps the memory sound, and every cited item of a readable document in place; publishes under the next revision a document that recalls the evidence and fits, if it is confirmed, or changes nothing |
| `MemoryStore.CheckCommit` | internal/core/goal_memory.go:191-314 | what passes the checks holds the trimmed state and steps of the patch, or the old ones, and each item field by field; it loses no item, keeps ids unique, fits the budget, starts from the current revision and holds every item its feedback cites |
| `MemoryStore.CommitIsAcceptedExactly` | internal/core/goal_memory.go:191-317 | a commit that is not proper (run, readable document, current revision, text lengths, at most 20 steps, upserts, retirements, feedback) is refused; a proper one is accepted if and only if the document it asks for fits 32 KiB, and that document is then stored |
| `MemoryStore.EveryRunIsSound` | internal/core/goal_memory.go:191-437 | over every run of commits, repairs, blocks, damage, new notes and pins: item ids stay unique, every receipt names cited items or a newer known note, and what was cited stays on record |
| `MemoryStore.CitedItemsSurviveExactly` | internal/core/goal_memory.go:284-361 | every item id ever cited is in the document at every point of a run where that can be read, if and only if each repair that had to start from nothing remembers the ids cited before it |
| `MemoryStore.CitedItemsSurvive` | internal/core/goal_memory.go:284-297 | an id cited at any point of a run from a new goal is in the document at its end, if its repairs started from readable documents |
| `MemoryStore.AnUnreadableRepairForgets` | internal/core/goal_memory.go:349-361 | a concrete run in which a repair of an unreadable document drops a cited item |
| `MemoryStore.GoalMemoryTable.Store` | internal/store/goal_memory.go:83-150 | the store's transaction records one receipt for each disposition of ordinary feedback, a later disposition of the same note replacing the earlier one |
| `MemoryStore.SupersededLinksEnd` | internal/core/goal_memory.go:298-302 | following superseded links in any reachable memory strictly climbs and ends at a note nothing supersedes |
| `Text.TrimDropsSpaces` | internal/core/goal_memory.go:178-187 | trimming takes away spaces at the two ends and nothing else |
| `Text.ShortTextCuts` | internal/core/goal_memory.go:523-530 | a shortened text is the trimmed text if that is short enough, or else its beginning and an ellipsis, with only spaces cut away before the limit |
| `ConfigTree.PutIsMapUpdate` | internal/config/editor.go:149-206 | on a mapping with unique keys a setter is an ordered-map update: the key shows the value, in its place or at the end, or is absent for an empty value; every other pair keeps its nodes and order |
| `ConfigTree.PutTwice` | internal/config/editor.go:149-206 | a second setter call changes nothing if and only if the value is not empty or the key was there at most once |
| `ConfigTree.PutIsIdle` | internal/config/editor.go:149-206 | a setter changes nothing if and only if the key already shows the value, or is already absent |
| `ConfigTree.AnyChangeIsExact` | internal/config/editor.go:65-84 | the setters' flags, or-ed together, say exactly whether the mapping changed: no write undoes another |
| `ConfigTree.PutAllTwice` | internal/config/editor.go:65-84 | applying a list of settings again changes nothing if and only if no cleared key was there more than once |
| `ConfigFile.MappingNodes.Find` | internal/config/editor.go:134-146 | the lookup finds the first value of a key, and writing there is writing under the key |
| `ConfigFile.MappingNodes.SetScalarChild` | internal/config/editor.go:149-174 | the index loop over the flat list computes the ordered-map update, and its flag is exact |
| `ConfigFile.MappingNodes.SetSequenceChild` | internal/config/editor.go:177-206 | the same for lists, where equality looks at the values of the elements only |
| `ConfigFile.MappingNodes.RemoveMappingChild` | internal/config/editor.go:123-132 | removes the first pair of a key; the flag says whether there was one |
| `ConfigFile.SequenceEqual` | internal/config/editor.go:208-218 | a node equals a list of values exactly when it is a sequence of those values |
| `ConfigFile.ConfigDocument.SetGlobal` | internal/config/editor.go:47-84 | the nine setters on the `global` mapping, created if missing, in the source's order; with unique keys a reader then finds provider, profile, model, effort, permission_mode, permission_timeout, fallback, auto_archive_days (7 for 0) and collapse_reasoning each under its own key, or nothing where the setting is empty |
| `ConfigFile.ConfigDocument.SetVoice` | internal/config/editor.go:96-118 | sets or clears the voice key, and drops a voice mapping left empty |
| `ConfigFile.ConfigDocument.UpsertProfile` | internal/config/editor.go:288-320 | replaces the first entry with the name, or appends one |
| `ConfigFile.ConfigDocument.RemoveNamed` | internal/config/editor.go:260-347 | drops every entry with a name from a list, in place, and reports it exactly |
| `ConfigFile.DropNamed` | internal/config/editor.go:272-283 | the in-place filter over the list's own storage keeps exactly the other entries, in order |
| `ConfigEditor.GlobalFlagIsExact` | internal/config/editor.go:47-84 | setGlobal returns false if and only if the document is unchanged |
| `ConfigEditor.SecondSetGlobalIsIdle` | internal/config/editor.go:47-84 | a second setGlobal changes nothing if and only if no setting it clears occurred more than once |
| `ConfigEditor.UniqueKeysAreSetOnce` | internal/config/editor.go:47-84 | with unique keys a second setGlobal changes nothing |
| `ConfigEditor.SettingsReadBack` | internal/config/editor.go:55-84 | every non-empty setting is found under its own key, all nine named, if and only if `global` was missing or a mapping; below any other node the setters write where nothing reads |
| `ConfigEditor.GlobalReadsBack` | internal/config/editor.go:47-84 | with unique keys below a missing or mapping `global`, each of the nine keys shows its own setting after setGlobal, and is absent if the setting is empty |
| `ConfigEditor.SettingsUnderAScalar` | internal/config/editor.go:55-84 | a concrete document with a scalar `global`: the settings are written and reported, and a reader does not find them |
| `ConfigEditor.UnownedKeysStay` | internal/config/editor.go:47-84 | keys of the global mapping the settings page does not own keep their pairs |
| `ConfigEditor.GlobalDocAct` | internal/config/editor.go:55-63 | everything outside `global` keeps its nodes and order |
| `ConfigEditor.EditsTheMapping` | internal/config/editor.go:47-54 | an edit goes into the mapping inside the document node and into nothing else; a bare mapping is edited itself, and an empty document has none |
| `ConfigEditor.VoiceFlagIsExact` | internal/config/editor.go:96-118 | setVoice returns false if and only if the document is unchanged |
| `ConfigEditor.VoiceReadsBack` | internal/config/editor.go:96-118 | after setVoice the voice block shows the key under openai_api_key, or not at all if it was cleared; the other keys of the block and of the document stay, and no empty block is left |
| `ConfigEditor.ClearingRestoresVoice` | internal/config/editor.go:96-118 | setting a voice key and clearing it restores the document if and only if it had no voice block, or a block with other keys but not this one |
| `ConfigProfiles.RemoveAfterUpsert` | internal/config/editor.go:288-347 | removing a profile just upserted equals removing it outright if and only if the document already had a `profiles` key; otherwise an empty list stays |
| `ConfigProfiles.AnEmptyListStays` | internal/config/editor.go:288-347 | upserting a profile into the empty document and removing it leaves an empty list |
| `ConfigProfiles.UpsertReportIsExact` | internal/config/editor.go:308-320 | upsertProfile's report is exact unless the provider is unknown and the entry is already the one it writes |
| `ConfigProfiles.AnUnknownProviderReports` | internal/config/editor.go:308-320 | a concrete list already holding the entry for an unknown provider: a change is reported all the same |
| `ConfigProfiles.UpsertDocReportIsExact` | internal/config/editor.go:288-320 | the same for the whole document |
| `ConfigProfiles.UpsertSettles` | internal/config/editor.go:308-320 | upserting a known provider's profile again changes nothing and says so |
| `ConfigProfiles.UpsertedIsRead` | internal/config/editor.go:288-398 | after an upsert the first entry with the name shows the profile: its name, its provider and that provider's directory |
| `ConfigProfiles.NodeStandsForProfile` | internal/config/editor.go:349-398 | the node written for a profile carries its name, and for a known provider equals the profile |
| `ConfigProfiles.UnnamedAfterUpsert` | internal/config/editor.go:308-347 | an upsert touches no entry with another name |
| `ConfigProfiles.UnnamedIsExact` | internal/config/editor.go:333-346 | removal keeps exactly the entries with other names, and shortens the list exactly when there was one with the name |
| `ConfigProfiles.RemoveReportIsExact` | internal/config/editor.go:324-347 | a removal changes the document if and only if its list exists, is a sequence and has an entry with the name |
| `GoalLifecycle.FailedProgressMovesNothing` | internal/core/goals.go:706-788 | a progress entry that fails moves no metric and no status; its text is already on the timeline, and some name was unknown |
| `GoalLifecycle.EveryRunRecords` | internal/core/goals.go:65-331 | in every run, whatever the clock does: an active goal has no closing report and one in review or done has a real one; the timeline is a legal history that only grows, and replaying it gives the status and the closing report |
| `GoalRaces.RecordsHoldExactly` | internal/core/goals.go:174-334 | however operations on one goal overlap, each loading it and storing the whole row later: the timeline is at every moment a legal history that shows the status and the report, if and only if no row is stored from a copy whose status, or whose report where the operation does not set it, the goal has left behind |
| `GoalRaces.StaleWriteKeepsExactly` | internal/core/goals.go:174-334 | the same for one store: updates, transitions, proposals, chosen targets and a bound lead conversation |
| `GoalRaces.UndisturbedIsAlone` | internal/core/goals.go:174-334 | a store that nothing came before is the operation in one piece |
| `GoalRaces.AProposalIsUndone` | internal/core/goals.go:174-242 | a concrete run in which an edit loaded before a proposal puts the goal back to active, while its timeline ends with the proposal |
| `GoalLifecycle.ReachedByTheRules` | internal/core/goals.go:252-331 | in every run from a created goal: one in review was proposed while active with the report it shows and nothing has touched that since; one that is done was moved there from such a review |
| `GoalLifecycle.ClockHoldsExactly` | internal/core/goal_sessions.go:629-641 | throughout a run a goal has a next review exactly while it is active with a cadence, if and only if its clock is only ever advanced while it is active or has no cadence |
| `GoalLifecycle.AStrayClock` | internal/core/goal_sessions.go:629-641 | a concrete run in which a paused goal gets a next review |
| `GoalLifecycle.TransitionFollows` | internal/core/goals.go:250-331 | a change of status is allowed if and only if it is one of ten listed moves and does not resume a goal whose memory is blocked; it then changes status, clock, report, next step and timeline as listed, the clock to now plus the cadence |
| `GoalLifecycle.CreateFollows` | internal/core/goals.go:65-110 | a goal is created if and only if its title, lead, target, project and cadence are proper, and then holds exactly what was given, due one cadence from now |
| `GoalLifecycle.UpdateFollows` | internal/core/goals.go:174-248 | an update is accepted if and only if its patch is proper, and then changes what the patch says, field by field, and nothing else |
| `GoalLifecycle.RecordFollows` | internal/core/goals.go:706-788 | a progress entry logs its text, sets the next step if it states one, and puts the first metric of each name where its last move says; it is empty exactly without text and moves |
| `GoalRecord.CreateGoal` | internal/core/goals.go:65-110 | a goal is created active with its records and its clock right, or not at all |
| `GoalRecord.StoredGoal.TransitionGoal` | internal/core/goals.go:269-331 | keeps the records and the clock; is allowed exactly for the ten listed moves of a goal whose memory does not forbid it; the new state is given field by field, or nothing changes |
| `GoalRecord.StoredGoal.ProposeGoalCompletion` | internal/core/goals.go:793-834 | keeps the records and the clock; only an active goal with a real report and committed memory enters review, with that report and no next step |
| `GoalRecord.StoredGoal.UpdateGoal` | internal/core/goals.go:174-248 | keeps the records and the clock; never touches status, report or timeline, and an agent's update never the title, lead or project |
| `GoalRecord.StoredGoal.RecordGoalProgress` | internal/core/goals.go:706-788 | keeps the records and the clock; the logged deltas lead from the old metrics to the new and back, and a refusal moves none |
| `GoalRecord.StoredGoal.BlockGoalMemory` | internal/core/goal_memory.go:159-167 | keeps the records and the clock; the goal rests whatever its status was, and keeps its report |
| `GoalRecord.StoredGoal.AdvanceReviewClock` | internal/core/goal_sessions.go:629-641 | keeps the records; a clock that was right stays right if and only if the goal is active or has no cadence; a next review is at least 15 minutes off |
| `GoalMetrics.DeltasAreExact` | internal/core/goals.go:752-786 | the logged deltas read forward on the old list give the stored list, and backward on the stored list give the old one, also when a metric moves several times or a name repeats |
| `GoalMetrics.UnknownNamesAreRefused` | internal/core/goals.go:760-773 | the updates are refused if and only if one names no metric |
| `GoalMetrics.ApplyMoves` | internal/core/goals.go:752-773 | the nested loops over a copied list compute the moves and their deltas, or the first unknown name |
| `GoalMetrics.MovesOnlyCurrent` | internal/core/goals.go:752-773 | the first metric of each name stands where its last move puts it, and nothing else about any metric changes |
| `Dreams.StepInv` | internal/core/dream.go:104-244 | each single step keeps: at most one dream per agent, flagged exactly while it runs; sessions are marked by a dream that selected them, after it wrote the memory, and once |
| `Dreams.OldestAreChosen` | internal/store/dreams.go:119-152 | a dream takes only the agent's own sessions that have an exchange, are not dreamed and have no live turn, oldest first, and leaves one out only if it takes 30 others, all of them older |
| `DreamRuns.ReachableDreams` | internal/core/dream.go:104-244 | under every interleaving from a fresh start: at most one dream per agent; a session is marked only by a dream that selected it and after that dream wrote the memory; no session is marked twice; the phase of a dream under way tells exactly whether it has written and marked |
| `DreamRuns.AnEditIsLost` | internal/core/dream.go:171-183 | a concrete run in which a dream overwrites a user's edit unread |
| `DreamRuns.FailuresTouchNothingExactly` | internal/core/dream.go:96-209 | a dream that fails has left the memory and the sessions untouched if and only if it failed before its write succeeded; after that it has changed the memory, and the marks too if and only if it was the journal row that could not be closed or read back |
| `DreamRuns.AFailureLeavesItsMemory` | internal/core/dream.go:213-225 | a concrete run in which the sessions cannot be marked: the dream fails, and the memory is the new one |
| `DreamRuns.AFailureLeavesItsMarks` | internal/core/dream.go:222-228 | a concrete run in which the journal row cannot be closed: the dream fails, the memory is the new one and the sessions are marked |
| `DreamRuns.StoreChangesAreLogged` | internal/core/dream.go:213-228 | a step changes a memory file only as an edit or as the write of a dream, and marks a session only as the marking of a dream, each of which the log shows |
| `DreamRuns.BacklogAfter` | internal/core/dream.go:140-145 | in any run in which no session starts or gets its first reply and no turn is live, k dreams of an agent that marked their sessions leave its backlog without its oldest 30k, whatever other agents, users and failing dreams do meanwhile |
| `DreamRuns.BacklogDrains` | internal/core/dream.go:140-145 | in such a run a backlog of n sessions is gone exactly when ceil(n / 30) dreams have marked theirs, and never takes more |
| `DreamRuns.IdleIsReady` | internal/core/dream.go:104-244 | both hold from every reachable state in which the agent is not dreaming |
| `DreamRuns.WriteReplacesWhatWasRead` | internal/core/dream.go:171-183 | a dream's write replaces exactly what it had read if and only if the last edit since its check, if any, put that text back; check and write are separate steps |
| `DreamRuns.NoEditIsLost` | internal/core/dream.go:171-183 | if no edit falls between a dream's check and its write, every write so far replaced what was read |
| `DreamRuns.NoMemoryIsErased` | internal/core/dream.go:165-168 | in every run no dream replaces a memory it read as non-blank by a blank one |
| `DreamRuns.WholeDream` | internal/core/dream.go:104-209 | an undisturbed dream, step by step, writes the reply and marks the oldest 30 pending quiet sessions, or does nothing without a usable reply or sessions; if writing, marking or the journal fails, what came before stays and nothing after it happens |
| `DreamRuns.PickDrop` | internal/store/dreams.go:127-152 | marking the first pending sessions takes exactly those off the list, in order |
| `DreamCore.Core.AcquireDream` | internal/core/dream.go:320-328 | succeeds if and only if the agent is not dreaming |
| `DreamCore.Core.DreamAgent` | internal/core/dream.go:104-209 | one dream of its own equals the undisturbed run, whichever store call fails; it succeeds exactly if all work, has then written the reply with a newline at its end and marked the chosen sessions and nothing else, and every way out releases the agent |
| `DreamCore.Core.ApplyDream` | internal/core/dream.go:213-228 | writes the memory, then marks each session, then closes the journal row, up to the first that fails |
| `DreamCore.DropLive` | internal/core/dream.go:232-244 | the in-place filter keeps exactly the sessions without a live turn, in order |
| `ProjectFiles.ReplacingConserves` | internal/core/project_git.go:304-334 | however and wherever a rename fails, if no staged entry meets a different one that stays and no entry that moves meets a different one in a backup of the same name: each former root entry is in the root or the backup, each staged one in the stage or the root, and the backup keeps what it had |
| `ProjectFiles.ReplacingEnds` | internal/core/project_git.go:304-334 | a finished replacement leaves in the root the checkout and the two skipped families, and in the backup everything else that was there |
| `ProjectFiles.ReplacingFinishesExactly` | internal/core/project_git.go:304-334 | a replacement finishes if and only if both directories can be read, the backup can be made if something has to move, no rename fails, and none meets a folder or puts a folder over a file |
| `ProjectFiles.LossExactly` | internal/core/project_git.go:304-334 | a finished replacement lost nothing if and only if no staged entry met a different one that stays and no entry that moved met a different one in a backup of the same name |
| `ProjectFiles.AStagedNameLoses` | internal/core/project_git.go:328-332 | a concrete checkout that holds a file named like a staging directory replaces the one that stays |
| `ProjectFiles.AnEarlierBackupLoses` | internal/core/project_git.go:313-321 | a concrete backup of the same second loses its file to one that moves |
| `ProjectFiles.ProjectFoldersOnDisk.ConnectRemote` | internal/core/project_git.go:213-225 | a refusal and a failed clone leave the project as it was; whatever happens each entry of the old code is in the code directory or in the backup, unless it is of a family that stays in place and the checkout has a different one of its name |
| `ProjectFiles.ProjectFolders.ReplaceDirContents` | internal/core/project_git.go:304-334 | the two rename loops compute that; the backup name is empty if and only if nothing had to move |
| `ProjectFiles.InstalledKeepsTheOldCode` | internal/core/project_git.go:264-294 | after an installed clone the code directory is the checkout and what stays, and the old code is in the backup |
| `ProjectFiles.OldCodeIsKeptExactly` | internal/core/project_git.go:264-334 | whatever the outcome, each former entry is still in the code directory or in the backup, unless it is of a family that stays in place and the checkout has a different one of its name; an installed clone replaces exactly those |
| `ProjectIds.UniqueProjectId` | internal/core/projects.go:75-99 | the unbounded search ends; its result is untaken and is the slug, or the slug with the least free number from 2, which is at most one more than the number of ids taken |
| `ProjectIds.TakenBoundsNumber` | internal/core/projects.go:93-98 | pigeonhole: the search can never pass that bound |
| `ProjectIds.CandidatesDiffer` | internal/core/projects.go:93-94 | different numbers give different ids |
| `ProjectIds.SlugIsSafe` | internal/core/projects.go:76-81 | a slug has letters, digits and single inner dashes only, whatever the name |
| `ProjectIds.SlugKeepsLetters` | internal/core/projects.go:76-81 | a slug keeps every letter and digit of the lower-cased name, in order; a name without any becomes "project" |
| `ProjectIds.SlugIsWords` | internal/core/projects.go:76-81 | a slug is the words of the lower-cased name, its longest stretches of letters and digits, joined by single dashes, or "project" if there are none |
| `ProjectIds.SafeIsItsOwnSlug` | internal/core/projects.go:76-81 | a slug is its own slug |
| `Decimal.RenderIsInjective` | internal/core/projects.go:94 | decimal renderings of different numbers differ |
| `Decimal.ParseRender` | internal/core/projects.go:94 | reading a decimal rendering gives the number back |
| `EnvOverlay.OverlayOverrides` | internal/adapter/claude.go:656-668 | the overlay is the entries with other names as they stood, followed by the last pair supplied for each name |
| `EnvOverlay.EachNameOnce` | internal/adapter/claude.go:656-668 | each supplied name is there exactly once, with its last pair; any other name keeps its entries |
| `EnvOverlay.NamesEndAtEquals` | internal/adapter/claude.go:656-668 | a name is what stands before the first equals sign, and a pair counts if and only if it has one that is not its first character |
| `EnvOverlay.PrefixIsName` | internal/adapter/claude.go:1524-1533 | the prefix test matches a variable's own name only, never one that extends it |
| `EnvOverlay.EnvList.UnsetEnv` | internal/adapter/claude.go:1524-1533 | the filter over the slice's own buffer removes exactly the entries of a name |
| `EnvOverlay.EnvList.ApplyExtraEnv` | internal/adapter/claude.go:656-668 | the loop of filters and appends on one buffer computes the overlay |
| `Tails.LimitedTail.Write` | internal/adapter/claude.go:1503-1518 | after a write the tail is the last limit bytes of what it held and the new bytes; a limit of zero or less keeps nothing |
| `Tails.LimitedTail.Copy` | internal/adapter/claude.go:1492-1496 | after any number of writes it is the last limit bytes of all of them |
| `Tails.ChunkingDoesNotMatter` | internal/adapter/claude.go:1503-1518 | how the bytes are cut into writes makes no difference |
| `Tails.StderrTail.Record` | internal/adapter/codex.go:766-777 | the tail is always the last 20 non-blank lines, trimmed, since the process started |
| `PlanGate.ReachableSessions` | internal/core/plan.go:75-186 | in every run: awaiting approval means a non-blank plan with a path, the last one submitted; pending means no stored plan; a plan stored with the gate down is the one that was awaiting at the last approval |
| `PlanGate.ApprovedWasAwaiting` | internal/core/plan.go:163-186 | the plan that counts as approved in a run was approved by the user when it was awaiting approval and the last one submitted, and nothing has changed what counts since |
| `PlanGate.GoneWasRejected` | internal/core/plan.go:341-412 | any file that was there and is gone, whoever wrote it, was taken away by a rejection, as the file of the plan then awaiting approval, from inside the plans directory |
| `PlanGate.RevisionKeepsTheFile` | internal/core/plan.go:217-233 | a native plan kept in the plans directory is revised in the same file |
| `PlanGate.NativePlanPlace` | internal/core/plan.go:217-233 | a native plan is written in the plans directory itself, under the last name of the stored path if that lies inside the directory, and under the fresh name otherwise |
| `PlanPaths.AcceptedExactlyInside` | internal/core/plan.go:379-397 | a path is accepted if and only if, cleaned, it lies properly inside the cleaned plans directory |
| `PlanPaths.ReadingBack` | internal/core/plan.go:379-397 | the text of a cleaned path reads back as that path |
| `PlanPaths.PathSteps` | internal/core/plan.go:379-397 | what a path means, segment by segment: nothing and "." stay, ".." goes up one step and not above the root, a name goes down one; without a slash from the working directory, with a leading one from the root |
| `PlanGate.PlanSession.FeedbackPlan` | internal/core/plan.go:188-212 | asking for changes is accepted exactly for an awaiting plan with something to say, and changes nothing |
| `PlanPaths.OneBelow` | internal/core/plan.go:228 | a name joined to a directory lies one step below it |
| `PlanGate.PlanSession.SetMode` | internal/core/plan.go:142-161 | keeps the gate's invariant; the gate is up exactly if asked for, a plan not approved is dropped with its file left on disk |
| `PlanGate.PlanSession.SubmitPlan` | internal/core/plan.go:75-135 | keeps the invariant; a plan is accepted if and only if it is not blank and the disk works (native) or it has its headings and lies inside the plans directory; the whole new state is given, the time of the first submission stays, and a refusal changes nothing and says why |
| `PlanGate.PlanSession.ApprovePlan` | internal/core/plan.go:163-186 | keeps the invariant; what is approved is the plan awaiting approval, the last one submitted, and it stays while the gate goes down |
| `PlanGate.PlanSession.RejectPlan` | internal/core/plan.go:341-412 | keeps the invariant; accepted exactly for an awaiting plan whose file, if it has one, lies inside the plans directory and can be deleted; the plan is gone, and of all files, whoever wrote them, at most its own, which lies inside the plans directory |

## Left out

- Decoding JSON and YAML, prompt texts, request parameters and provider text classifiers: payloads arrive decoded, and texts the loops only pass on stay abstract.
- YAML anchors and aliases: nodes are values, so two keys never share one node; the in-place updates are those of the lists that hold them.
- Nodes written by the encoder: reading settings back is reading the tree, not the file.
- The thread tables of the Codex client (loaded threads, file changes, pending respawns), server requests and native-agent enrichment: each is settled by one branch.
- Go's choice between a ready channel and a finished context: the caller's context ends after some number of sends, any number.
- `codexClient.refreshCredentials` at lock granularity: its resets are the protocol's reset steps, at any point of a run.
- Deadlock freedom of sends to a turn whose consumer has left: the source does not give it.
- `CodexRuns.ResultsReachTheirCall`: a process that answers ids it was never sent is excluded, as JSON-RPC 2.0 (section 5) asks of a server.
- SHA-256 in the dream's check: the model compares the texts themselves.
- What the dream journal's rows hold, and the time at which a dream is due: creating, closing and reading back the row are steps that can fail.
- Operations on a goal outside `GoalRaces` are one step each; there, storing a row and appending its entry are one step, and so are a progress entry with its metrics and a turn of the clock.
- Plan operations of one session that overlap: each is one step.
- Store failures other than those a step lists: store writes succeed and are atomic.
- Repair racing a concurrent commit: a repair is one step.
- `Text.ShortText` and the length limits count code points, as the source does; the pinned-note limits, which count bytes, are not modelled, nor is pinning beyond what a commit needs.
- Lower-casing in `ProjectIds.Slug` is any function from characters to characters.
- The heading test of submitted plans is a parameter: it needs Unicode case folding.
- Rename onto a folder is refused, as Go's `os.Rename` does on Unix; links and case-insensitive names are not modelled.
- Adopting an existing checkout and `git init`: the other two branches of connecting a project move no files.
- The lock on task fields once a session exists, and moving a task to review and back: each is one branch on one record.
- Floating-point rounding of metrics: they are only stored and compared.

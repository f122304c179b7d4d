# The durable ingest pipeline, verified

A Dafny model of the indexer's ingest pipeline: a single process that follows a ledger chain through a
rotating pool of RPC endpoints, derives facts about the escrow contracts it tracks, delivers them to a
message broker, reads the escrows' current state back from the chain, and keeps a cursor and a watchlist
in two files. It is meant to lose nothing through crashes, restarts, rotations and retention clamps.

The model has three layers.

1. **Components** in the form the program gives them. `Registry`, `FileStore`, `Pool`, `GapRecorder`,
   `EscrowStateDetector`, `Sweeper`, `RabbitSink`, `BackpressureSink` and `CommandExecutor` are classes
   whose methods are proved against specification functions on values; the theorems are about those functions.
2. **The machine** (`Machine.dfy`): the whole system as a value, with one action for each atomic step of the
   loop and of a save, and environment actions for booting, crashing and the passing of time. An action that
   cannot be taken changes nothing, so a trace is any sequence of actions. `NoLoss`, `Notices`, `Linkage`,
   `Stamps`, `Rework`, `Pending`, `Tombstones`, `Durability`, `Replay`, `CrashReplay`, `LogReplay`, `Identity`,
   `Poison`, `Untracked` and `Wire` prove what holds in every state of every trace. Broker, endpoints, operators,
   clock and crashes are unconstrained unless a theorem names a hypothesis.
3. **The loop** (`Ingest.dfy`): the program's own loop over the component objects. Each of its methods carries a
   ghost machine state along (`Passages.dfy` has the multi-step passages), so a lifetime of the loop ends in
   files and deliveries that some trace of the machine ends in, and `Supervise` draws the no-loss theorem for
   any number of lifetimes on one pair of files. A lifetime also keeps ghost notes, handed from method to method:
   a journal of its sweep (`Diary.dfy`) and a book of its decisions about states and its answers to commands
   (`Minutes.dfy`). Notes are of a type that admits genuine ones only, and both modules prove what such notes
   put on the wire.

Where the program does not keep a promise, the exact condition under which it does is proved, beside inputs on
which it does not: the continuity check's false alarm after a clamp (`Linkage.FalseAlarmIff`), the start window
near the end of the uint32 range (`Window.InsideWindowAcceptedIff`), the key cache beside a preferred entry
(`DetectorGuarantees.CacheAgreesIff`), facts that validation refuses (`Envelopes.FactPublishableIff`), commands lost
in a fatal drain (`Durability.DrainSurvivesIff`), the anchor moved by a failed sweep batch (`SweepGuarantees.NothingHiddenIff`).
README.md:23-24 of the indexer says a gap is recorded only if no endpoint serves the range; in live mode the code
adopts the first endpoint that clamps, and the model follows the code (`Failover.NeedlessGapIff` says exactly when
the two part). `Witness` has runs from an empty disk in which a command is lost and in which the continuity check
raises its false alarm; `SweepGuarantees.FailedVisitHidesTheChange`, `Failover.ClampingEndpointWinsOverDeeperOne`,
`Shadowing.LearnedKeyGoesStale`, `Window.InsideWindowRefusedNearTheEnd` and `Envelopes.UnpublishableFact` (with
`Poison.NeverPastTheFirstLedger`, a deployment that never gets past such an event) are the others. An escrow on
chain is reported gone by a snapshot only if a command removed it while it was deferred (`Untracked`, with a run in
`FalselyGone`).

Values: ledger numbers, indexes and their arithmetic are uint32 with wrap-around written out (`Base.u32`);
durations and times are integers in nanoseconds; a hash is a number with 0 for the empty string; file texts are
what they parse to, plus a layout number for the byte comparison the watchlist cache makes. The last uint32
ledger is never served, which keeps cursor plus one from wrapping.

Verify everything with `dafny verify dfyconfig.toml --warn-contradictory-assumptions`.

## Model

| member | source | states |
|---|---|---|
| NoLoss.NoSilentLoss | internal/ingest/ingest.go:373-569 | In every state of every run (crashes between any two writes, restarts, rotations, clamps, commands), each ledger from the deployment's first one to the durable cursor either had every fact of its last processing accepted by the sink or lies in a gap on that same disk; with an explicit start the first one is that start |
| NoLoss.CursorNeverDecreases | internal/state/file_store.go:191-224 | Between any two moments of a run the durable cursor does not go back and the gap list on disk only grows at its end |
| NoLoss.EvidenceBeforeAdoption | internal/ingest/failover.go:235-250 | A process that is not in the middle of a save has every gap it knows on disk, and everything below its current ledger is accounted for |
| NoLoss.BaseAlways | internal/ingest/ingest.go:128-177 | The first ledger of a deployment with an explicit start or a cursor is fixed for all its processes |
| NoLoss.StepKeeps | internal/ingest/ingest.go:373-569 | Every single step of the pipeline, whichever it is, keeps the accounts of files, gaps, derivations and deliveries |
| NoLoss.CursorKeeps | internal/ingest/ingest.go:506-511 | Writing the cursor after the watchlist makes durable exactly what the process had accounted for |
| Notices.GapsAnnouncedBeforeLedgers | internal/ingest/ingest.go:276-284 | At every loop head each gap on disk has been announced with its envelope, however many crashes lay between recording and announcing |
| Notices.AlwaysValid | internal/events/envelope.go:170-223 | Every envelope any run ever delivers passes validation |
| Poison.PassedFactsAreValid | internal/ingest/ingest.go:435-439 | In every run, all that was last derived from a ledger up to the durable cursor and outside the gaps is publishable |
| Poison.CursorStopsAtPoison | internal/sink/rabbitmq/rabbitmq.go:241-260 | So the cursor stays below a ledger outside the gaps whose last derivation holds an unpublishable fact |
| Poison.PassedEventsAreValid | internal/indexer/indexer.go:48-99 | Under one history, whatever any registry detects in a passed, unskipped ledger about an escrow due there is publishable |
| Poison.PoisonHoldsTheCursor | internal/ingest/ingest.go:435-439 | Under one history no number of restarts helps: an unpublishable event about a due escrow holds the cursor below its ledger in every run that does not skip it |
| Poison.SameEventSameVerdict | internal/events/envelope.go:170-223 | Two detections of one event, under any registries, are both publishable or neither is |
| Poison.NeverPastTheFirstLedger | internal/ingest/ingest.go:435-439 | A deployment whose seeded escrow emits an event without topics in the first ledger: no run of it gets its cursor there but by skipping it |
| Linkage.ChainLinkage | internal/ingest/ingest.go:348-352 | Over hash-linked sessions, adjacent ledgers of one process, the hashed cursor it resumed from included, are linked by parent hash through every rotation; a saved hash is that of the saved cursor's ledger as it was processed |
| Linkage.FalseAlarmIff | internal/ingest/ingest.go:395-408 | On one chain the continuity check refuses a ledger exactly when a parent is expected although the last processed ledger is not the one before |
| Linkage.ClampThenRotationAlarms | internal/ingest/ingest.go:402-408 | From any reachable loop head right after a ledger of the deployment, a clamp followed by a rotation with no ledger between them leads to a reachable head that refuses the very chain that was followed |
| Witness.FalseAlarmHappens | internal/ingest/ingest.go:402-408 | Such a run from an empty disk, through a first ledger, to the refusal |
| Stamps.StampsNeverRegress | internal/ingest/ingest.go:448-511 | With monotone clock and close times and a known start, activity and sweep snapshots carry nondecreasing ledgers over the whole run, none was older than the catch-up age when decided, and without commands the same holds of all state envelopes delivered |
| Stamps.DecideKeeps | internal/ingest/ingest.go:448-470 | A ledger that is not old when snapshots are decided cannot lie below the newest stamp, even in a process that repeats ledgers after a crash |
| Stamps.AlwaysStamped | internal/ingest/ingest.go:461-489 | Without commands the ledgers of the state envelopes on the wire are those of the stamped snapshots, one for one and in order |
| Rework.ReworkBounded | internal/ingest/catchup.go:30-32 | At every loop head at most 99 processed ledgers lie past the durable cursor (past the one before the start while there is none), and the uint32 checkpoint distance is the true distance |
| Rework.CheckpointRhythm | internal/ingest/catchup.go:20-32 | A process at its checkpoint decision saves the cursor with the ledger's hash exactly when at the tip, at the end of a bounded range, or a full hundred ledgers past its last checkpoint |
| Pending.DeferredStatesConserved | internal/ingest/ingest.go:451-470 | At every loop head each escrow active since the process began is still deferred or was fetched at its last activity's ledger or later |
| Untracked.AskedIsTracked | internal/ingest/ingest.go:448-470 | In every run a snapshot asks only about tracked escrows and such as a command removed while they were deferred, deferred ever since |
| Untracked.FalselyGoneWasRemoved | internal/indexer/processors/escrow_state.go:178-197 | Over honest nodes those are the only ones a snapshot reports gone while they are on chain, and it reports each of them unless the guard withholds the batch |
| FalselyGone.AnnouncedAlthoughOnChain | internal/ingest/ingest.go:448-470 | A run from an empty disk in which a deferred escrow is removed by command and the snapshot at the tip announces it gone although it is on chain |
| Tombstones.TombstonesPermanent | internal/ingest/ingest.go:193-206 | From the moment a removal is on disk and not taken back, the id stays tombstoned on disk and in every later process, through discovery, seeds, reseeds, crashes and orphan recovery, until a track command names it |
| Tombstones.RemovalReachesDisk | internal/state/file_store.go:191-224 | The first write of any save puts the process's tombstones on disk |
| Tombstones.AlwaysConsistent | internal/indexer/registry/registry.go:83-162 | No process of any run ever tracks an id it has tombstoned |
| Durability.DrainSurvivesIff | internal/ingest/ingest.go:544-553 | In any run, the registry a drain leaves behind is the next process's if and only if the crash came after the first write of the save ending the drain, or the files said the same already; a fatal answer is the case of a save not begun. Between the two writes a deployment without a cursor and with nothing at all to restore boots from its seeds |
| Durability.RestoredExactly | internal/ingest/ingest.go:193-206 | Booting from a record of a clean registry restores exactly that registry |
| Durability.InvAlways | internal/ingest/ingest.go:142-206 | Every process of every run holds a disjoint registry without the empty id, and a crash at any point leaves files the next process boots from |
| Witness.RemovedEscrowComesBack | internal/ingest/control.go:164-178 | A reachable run, from an empty disk on, in which an executed removal is lost to a later fatal answer of the same drain and the next process tracks the escrow again |
| Durability.DrainIsVolatile | internal/ingest/control.go:164-178 | Nothing a drain does reaches the files before the save that ends it |
| CrashReplay.DueEscrowsMissNothing | internal/indexer/indexer.go:48-99 | Without registry commands, whatever any registry detects in a ledger up to the cursor, outside the gaps and about an escrow due to be tracked there, was delivered under the same id and with the same payload, however often the run crashed and whatever it skipped |
| LogReplay.NoGapsNoDifference | internal/indexer/indexer.go:48-99 | Without registry commands and with no gap recorded, every event or deposit a crash-free run put on the wire for a ledger up to a crashed run's cursor is on the crashed run's wire too, under the same id, with the same raw event, ledger, transaction and index |
| LogReplay.OtherRunsAddNothing | internal/indexer/indexer.go:48-99 | What any other run put on the wire, with whatever crashes, commands and skips, about an escrow due in a ledger the crashed run did not skip, the crashed run put there too |
| LogReplay.CrashFreeDerived | internal/ingest/ingest.go:435-439 | In a crash-free run every event or deposit on the wire is a fact derived from its own ledger, which is processed once at most |
| CrashReplay.CrashFreeAtMost | internal/ingest/ingest.go:142-206 | A crash-free run never derives more than what the ledgers outside the gaps make of the first registry |
| Replay.InvAlways | internal/ingest/ingest.go:142-206 | In every run the durable watchlist and the live registry hold at least what is due at the cursor and at the loop, and every ledger below was derived with at least the due facts |
| Replay.ProcessingSuffices | internal/indexer/indexer.go:48-99 | Processing a ledger with at least the due registry derives at least the due facts and leaves at least the due registry |
| Replay.Restored | internal/ingest/ingest.go:193-206 | Booting from a saved record gives back the same tombstones and at least the tracked escrows, the seeds being added when the record was empty |
| Identity.OneIdOneEvent | internal/events/envelope.go:74-97 | Over any two runs, two event or deposit deliveries under one message id carry the same raw event, ledger, close time, transaction and index |
| Identity.OneIdOneSubject | internal/events/envelope.go:74-148 | Over any two runs, envelopes under one message id are of one family and about the same event, the same escrow at one ledger, or the same gap, for printed hashes, addresses and colon-free names |
| Identity.AlwaysSourced | internal/ingest/ingest.go:435-439 | Everything ever delivered as an event or deposit is a fact of a served ledger |
| Wire.EveryDeliveryIsTrue | internal/events/envelope.go:74-148 | Every envelope on the wire after any run says, field by field, what the process delivering it knew: of kind event, an event its contract, tracked then, emitted at that place of that transaction of the ledger in hand, with its leading symbol as kind; of kind deposit, a transfer to its contract, tracked, by a contract that is not; of kind state, an entry or removal read for that escrow and stamped with the ledger in hand; of kind control, a recorded gap with its range and reason, at the ledger after it |
| Ingest.Supervise | internal/ingest/ingest.go:103-580 | Over any number of process lifetimes of the imperative loop, endpoints answering differently in each, files and deliveries are those of a run of the machine; the cursor did not go back, and files and deliveries account for every ledger up to it; each lifetime left genuine notes: of its sweep's visits, all answered ones but at most the last delivered, its memories as good as the nodes it met; of each ledger's decision about states, with the question and the delivered answer; of its sweep's turns; and of the commands it took, which are the first ones of all that came to it, ledger by ledger, answered in order but at most the last |
| Ingest.Pipeline.Ingest | internal/ingest/ingest.go:103-580 | One lifetime of the loop: however it ends, files, clock and deliveries are those of a state a run of the state machine reaches, its notes are of its own nodes and deliveries, and it took the first ones of the commands that came, skipping none before the ledger it ended at; if it ends by itself it went through all its loop heads or past the end of a bounded range |
| Ingest.Pipeline.Restore | internal/ingest/ingest.go:142-206 | Load, network check, tombstones before escrows, or seeds: the process mirrors the machine's boot |
| Ingest.Pipeline.Connect | internal/ingest/ingest.go:271-284 | First adoption: continuity anchor armed only on a contiguous hashed resume, checkpoint base start-1, all gaps announced |
| Ingest.Pipeline.Rotate | internal/ingest/ingest.go:379-413 | A rotation keeps the ledger and re-arms the anchor, or moves forward with the anchor cleared after the gap was saved; gaps are announced again |
| Ingest.Pipeline.Turn | internal/ingest/ingest.go:373-413 | A loop head goes through its whole ledger and hears the operators exactly when the endpoint yields the ledger, the fetch being explained answer by answer, and rotates otherwise, unless the process ends |
| Ingest.Pipeline.ReachEndpoint | internal/ingest/failover.go:120-157 | Adoption happens with the gap saved in full and of a session no earlier process had, or the process ends with the files at some prefix of that save |
| Ingest.Pipeline.FetchLedger | internal/ingest/ingest.go:379-379 | A ledger is returned exactly when the retrying fetch ends with one, and then it is the live session's answer for the current ledger; how the fetch ended is explained answer by answer |
| Ingest.Pipeline.Process | internal/ingest/ingest.go:415-428 | A ledger is processed if and only if it descends from what is expected and decodes; then registry, facts and active escrows are those of the machine's fetch step |
| Ingest.Pipeline.PublishFacts | internal/ingest/ingest.go:435-439 | The decision on states is reached only after every fact was accepted in order; otherwise the process ends |
| Ingest.Pipeline.PublishStates | internal/ingest/ingest.go:448-470 | Older than twenty minutes, the ledger has its active escrows deferred; otherwise one unfiltered fetch asks about exactly them and all deferred ones, at the current ledger, its changes are delivered, and nothing stays deferred; the book has the question, the node and the answer |
| Minutes.ActivityIsPublished | internal/ingest/ingest.go:448-470 | By that book, over any lifetime: an escrow active at a ledger or deferred until then is either still deferred, every ledger since having been old, or was asked about at the first ledger at the tip; and if that node was honest and the escrow tracked, what the chain held of it is on the wire, stamped with that ledger: an entry of it, or its removal if it has none and the guard lets it pass |
| Minutes.CommandIsPublished | internal/ingest/control.go:61-155 | By that book: tracking, refreshing or reseeding an escrow puts an entry the chain holds of it on the wire, stamped with the last processed ledger, if the node is honest and answers |
| Ingest.Pipeline.SweepOnce | internal/ingest/ingest.go:472-497 | The sweep makes one visit exactly when it is enabled and the ledger closed at most thirty seconds ago, and none otherwise; a failed fetch skips the batch, a failed publish ends the process; the diary notes batch, anchor, charge, node and answer |
| Ingest.Pipeline.Checkpoint | internal/ingest/ingest.go:499-511 | The cursor is saved with the ledger's hash when due, and lastCheckpoint and lastLedgerHash follow |
| Ingest.Pipeline.SaveNow | internal/ingest/ingest.go:544-546 | A command's result is saved at the current ledger with its hash: the files load to exactly the registry and gaps at hand |
| Ingest.Pipeline.Obey | internal/ingest/control.go:164-178 | One command is taken: the registry, the pause and the book change as that command says, one machine step plus its answers; a fatal answer leaves it without reply and ends the process unsaved |
| Ingest.Pipeline.Drain | internal/ingest/ingest.go:547-553 | Every command of the queue is taken, in order, and answered, or an answer is fatal and no later one is taken; on success registry and pause are what the whole queue makes of them, the files hold the registry if anything changed, and every contract whose last word in the queue is its removal is tombstoned, untracked, and so on disk |
| Ingest.Pipeline.Hold | internal/ingest/control.go:185-220 | Every command that comes in at a poll is taken, in order, and answered, or one is fatal; on success the registry is what they make of it, the files hold it if anything changed, no pause is in effect and the pause commanded is over |
| Ingest.Pipeline.NextLedger | internal/ingest/ingest.go:568-568 | The loop moves to the next ledger number without wrapping |
| Passages.SaveCompletes | internal/state/file_store.go:191-224 | A completed save leaves both files and the cache as the store's specification says, the process where the save leads |
| Passages.SaveTears | internal/state/file_store.go:191-224 | Any prefix of a save is a prefix of the machine's two writes followed by a crash |
| Passages.AdoptsClamped | internal/ingest/failover.go:235-250 | A clamped adoption is a recorded gap, a hashless cursor before the start, then the session swap |
| StateStore.TwoFileSafety | internal/state/file_store.go:121-224 | After any history of saves, torn saves and restarts, a load yields the cursor of the last save whose cursor landed, under the watchlist of that save or of a later torn one |
| StateStore.BeforeFirstCursor | internal/state/file_store.go:148-188 | Before any cursor landed, a legacy combined record keeps its cursor and a fresh deployment comes back as an orphan watchlist |
| StateStore.CacheTrueAlways | internal/state/file_store.go:207-214 | A non-empty watchlist cache always equals the text on disk |
| StateStore.SaveReloads | internal/state/file_store.go:191-224 | A completed save, its watchlist write skipped or not, reloads to exactly what was saved |
| StateStore.FilesHoldLastWrites | internal/state/file_store.go:191-224 | Each file holds what the last attempt to pass its stage wrote, or what it held at first |
| StateStore.FileStore.Load | internal/state/file_store.go:121-164 | Reads and merges both files as specified and refreshes the cache only when it got that far |
| StateStore.FileStore.LoadOrphanWatchlist | internal/state/file_store.go:166-188 | With no cursor file a surviving watchlist is preserved, a corrupt one is an error |
| StateStore.FileStore.Save | internal/state/file_store.go:191-224 | Success is both writes; failure leaves the files before, between or after them |
| StateStore.Drive.ReplaceCursor | internal/state/file_store.go:238-255 | A file is replaced whole or not at all, and a lost answer may follow either |
| StateStore.ReplaySeesWhatLoadSees | internal/state/replay.go:34-60 | The lock-free watchlist reader returns the lists a load returns and fails only where a load fails or the cursor is corrupt |
| Failover.AdoptionPromise | internal/ingest/failover.go:166-251 | An adopted start is nonzero, not below a nonzero request, not past a bounded end; the gap is exactly the skipped range and never occurs in replay mode |
| Failover.AdoptableIff | internal/ingest/failover.go:166-251 | Exactly which endpoints are adopted: right network, upright window not absurdly far below the request, later of request and oldest real and within a bounded end, nothing skipped in replay, backend prepared |
| Failover.RingOrder | internal/ingest/failover.go:135-157 | A cycle visits each endpoint once in ring order, the abandoned one last |
| Failover.Pool.Cycle | internal/ingest/failover.go:138-157 | The first acceptable endpoint in ring order wins, as `Winner` says, and every earlier one was rejected; at most one gap is appended, saved before adoption; a failed save aborts the cycle; no session number is ever used twice |
| Failover.Pool.ConnectEndpoint | internal/ingest/failover.go:166-251 | One endpoint: verdict as examined, the session swapped only after the gap is saved, nothing leaked on refusal |
| Failover.Pool.OpenCandidate | internal/ingest/failover.go:166-233 | Whatever refuses the endpoint closes what was opened for it |
| Failover.Pool.Connect | internal/ingest/failover.go:120-122 | Boot leaves exactly one open session on success |
| Failover.Pool.Rotate | internal/ingest/failover.go:130-133 | A rotation leaves exactly one open session on success and none on failure; the abandoned endpoint is adopted again only after all others were tried |
| Failover.Pool.CloseSession | internal/ingest/failover.go:304-317 | Closing leaves no session open |
| Failover.GapRecorder.OnGap | internal/ingest/ingest.go:265-269 | Appends exactly the gap and saves the full state with the hashless clamped cursor |
| Failover.GapRecorder.SnapshotState | internal/ingest/ingest.go:673-682 | A saved record carries network, cursor, hash, both sorted lists and all gaps |
| Failover.NeedlessGapIff | internal/ingest/failover.go:138-251 | Over every pool, a gap is recorded although some endpoint serves the whole range if and only if the run is no replay, the first adoptable endpoint's oldest ledger is above the request, and a later endpoint serves it whole |
| Failover.WinnerIsFirst | internal/ingest/failover.go:138-157 | The outcome of a cycle is the first adoptable endpoint in ring order, and there is none exactly when none is adoptable |
| Failover.ClampingEndpointWinsOverDeeperOne | internal/ingest/failover.go:213-251 | A family of two-endpoint cycles: the clamping one wins in live mode, the deeper one in a replay and when the end lies below the clamp |
| Window.ClampAccountsForEveryLedger | internal/ingest/start_ledger.go:39-61 | Every ledger from the requested one on is either processed or inside the gap that ends right before the start, whose reason is rpc_retention |
| Window.InsideWindowAcceptedIff | internal/ingest/start_ledger.go:44-52 | A start inside the served window is accepted unchanged exactly when adding the slack to the tip does not wrap, or the start is below the wrapped sum |
| Window.InsideWindowRefusedNearTheEnd | internal/ingest/start_ledger.go:44-48 | A concrete in-window start near the uint32 maximum is refused |
| Window.RefusedIff | internal/ingest/start_ledger.go:39-52 | Away from the uint32 maximum a start is refused exactly when the window is inverted or the start lies more than 60 ledgers past the tip |
| Window.FetchLedgerWithRetry | internal/ingest/ingest.go:716-789 | For any backend, by the answers themselves: it goes on only after failures without a readable uint32 window, or with one that holds the ledger, and after windows wholly below the ledger; retention lost exactly when the last window begins above the ledger and does not end below it, given up exactly at the tenth transient failure, tip stalled exactly on a blocked call or when the tip waits reach the budget, stopped exactly by the context; the waits are 1, 2, 4, 8, 16 and then 30 seconds |
| Window.CallsBounded | internal/ingest/ingest.go:716-729 | A fetch makes at most nine calls more than the stall budget has seconds, counted up |
| Window.ClassLocatesTheLedger | internal/ingest/ingest.go:815-833 | For an upright uint32 window the class says exactly whether the ledger lies past it, before it or inside; anything else is no window error |
| Window.Doubling | internal/ingest/ingest.go:779-784 | The backoff update yields the next of min(2^k s, 30 s) |
| Registry.DisjointAlways | internal/indexer/registry/registry.go:83-162 | Under every order of operations no id is both tracked and tombstoned |
| Registry.TombstonePermanent | internal/indexer/registry/registry.go:83-162 | A tombstone survives every operation but a Track of that id |
| Registry.TrackedGrows | internal/indexer/registry/registry.go:83-162 | Only Remove and a tombstone restore ever shrink the tracked set |
| Registry.Registry.Register | internal/indexer/registry/registry.go:83-101 | Tracks an approved, untombstoned, nonempty id; reports true exactly when the registry changed |
| Registry.Registry.Seed | internal/indexer/registry/registry.go:104-116 | Adds every nonempty untombstoned id of the list |
| Registry.Registry.Track | internal/indexer/registry/registry.go:122-137 | Clears the tombstone and tracks; under disjointness an unreported call changed nothing |
| Registry.Registry.Remove | internal/indexer/registry/registry.go:140-151 | Untracks and tombstones, reporting whether it was tracked |
| Registry.Registry.SeedRemoved | internal/indexer/registry/registry.go:153-163 | Tombstones every nonempty id and untracks it |
| Registry.Registry.Snapshot | internal/indexer/registry/registry.go:184-195 | The sorted tracked ids |
| Ids.LessIff | internal/indexer/registry/registry.go:184-206 | The order of the snapshots is the dictionary's: a proper prefix first, else the first letter that differs decides |
| Facts.DetectionMonotone | internal/indexer/processors/escrow_events.go:70-134 | With more escrows tracked every fact stays a fact under the same id and payload, and decoding fails on the same ledgers |
| Facts.DiscoveryMonotone | internal/indexer/processors/escrow_discovery.go:40-60 | Discovery only adds, never touches a tombstone, and keeps one registry above another |
| Facts.DiscoveredIff | internal/indexer/processors/escrow_discovery.go:40-96 | After discovery a contract is tracked exactly when it was before, or carries no tombstone and some successful transaction leaves an approved instance of it |
| Facts.DetectedIff | internal/indexer/processors/escrow_events.go:70-134 | Detection forwards, of every successful transaction, each event a tracked escrow emits, under its leading symbol, and each transfer to a tracked escrow by anyone else, with its place, transaction and raw event, and nothing besides |
| Facts.ClassifiedIff | internal/indexer/processors/escrow_events.go:107-133 | An event is a tracked escrow's own event exactly when that escrow emitted it, even a transfer to another one, and a deposit exactly when it is a transfer to a tracked escrow whose emitter is not tracked |
| Facts.InstanceIff | internal/indexer/processors/escrow_discovery.go:66-96 | A change counts as a deployment exactly when it leaves a Wasm instance under the instance key of a named contract |
| Facts.TransferIff | internal/indexer/processors/escrow_events.go:167-206 | A deposit candidate is exactly a transfer event from one named address to another |
| Facts.ReprocessingCovers | internal/indexer/indexer.go:48-99 | Reprocessing a ledger with a larger registry derives every id again with the same payload |
| Facts.IdDeterminesPayload | internal/indexer/processors/escrow_events.go:70-104 | Two detections of a ledger give one id the same raw event, ledger and transaction fields |
| Facts.Origin | internal/indexer/processors/escrow_events.go:70-104 | A fact is one event of one successful transaction at its own running position |
| Facts.ProcessLedgerInPlace | internal/indexer/indexer.go:48-99 | Discovery over the whole ledger, then detection; active escrows once each, exactly those of the facts |
| Facts.DiscoverFromTransaction | internal/indexer/processors/escrow_discovery.go:40-60 | Registers exactly the approved untombstoned instances and counts the new ones |
| Facts.DetectFromTransaction | internal/indexer/processors/escrow_events.go:70-104 | Facts in order, each numbered by its position over all operations, matched or not |
| Catchup.DrainPending | internal/ingest/catchup.go:38-49 | The deferred and active escrows, sorted and once each; the set is emptied |
| DetectorTheorems.HonestFetch | internal/indexer/processors/escrow_state.go:157-198 | Over an RPC that is honest when it answers, whatever the chain holds: a fetch that succeeds reports nothing but what is expected and leaves nobody out, one change per escrow in id order; removals are withheld, and counted, exactly when ten or more escrows could be judged and more than half of them are gone; where data entries compete it reports one of them; only candidate keys are ever learned, and a failed fetch counts nothing |
| DetectorTheorems.ReliableFetch | internal/indexer/processors/escrow_state.go:157-281 | A fetch fails only when a request fails |
| DetectorGuarantees.RemovedExactlyWhenGone | internal/indexer/processors/escrow_state.go:178-197 | A fetch that succeeds reports an id removed exactly when it was asked about, it is untracked or has no candidate entry on chain, and not both ten or more could be judged and more than half of them are gone; stale key, competing entries and unchanged-filter notwithstanding |
| DetectorGuarantees.UpdatedExactlyWhenChanged | internal/indexer/processors/escrow_state.go:157-198 | A fetch that succeeds reports an id updated only when it is tracked, on chain and some entry of it changed since the anchor, and always when every entry did; with no anchor exactly when it is tracked and on chain; with one data entry exactly when that changed |
| DetectorGuarantees.CacheAgreesWithPlainQuery | internal/indexer/processors/escrow_state.go:231-309 | With no asked escrow shadowed or holding two data entries, and both fetches answered, any reachable key cache returns what an empty one returns, filter and guard included |
| DetectorGuarantees.CacheAgreesIff | internal/indexer/processors/escrow_state.go:231-309 | Unfiltered, for asked escrows of one data entry each, cache and plain query agree exactly when no asked escrow's learned key still answers beside a preferred entry of different content |
| Shadowing.LearnedKeyGoesStale | internal/indexer/processors/escrow_state.go:231-309 | A node that never fails and never lies, a detector that learned the instance key in its first fetch, a data entry that appeared since: it goes on reporting the instance entry where a new detector reports the data entry |
| DetectorGuarantees.GuardConserves | internal/indexer/processors/escrow_state.go:181-208 | For any RPC restricted to requested keys: every requested escrow is updated, removed or withheld, exactly one of them; those without an update are all withheld and counted if ten or more were requested and more than half of them went without, and all removed otherwise |
| DetectorGuarantees.FilterKeepsRemovals | internal/indexer/processors/escrow_state.go:315-326 | The unchanged-filter changes neither the removals nor what the detector remembers |
| DetectorGuarantees.BatchPrice | internal/indexer/processors/escrow_state.go:231-281 | A batch within the key budget costs at most one request plus at most four for relearning, each of at most 200 keys |
| DetectorGuarantees.FetchStamped | internal/indexer/processors/escrow_state.go:380-454 | Every change of a fetch carries the ledger and close time it was asked under, whatever the RPC answers |
| DetectorGuarantees.FetchStaysCareful | internal/indexer/processors/escrow_state.go:231-281 | As long as every node answered only about what it was asked, the detector has learned nothing but candidate keys, through fetches that succeed and fetches that fail |
| DetectorGuarantees.HonestIsRestricted | internal/indexer/processors/escrow_state.go:231-281 | An honest node answers only about what it was asked |
| Detector.EscrowStateDetector.FetchStates | internal/indexer/processors/escrow_state.go:157-198 | The method computes the specified fetch: query, relearn stale keys, judge, guard, sort, filter |
| Detector.EscrowStateDetector.QueryEntries | internal/indexer/processors/escrow_state.go:231-281 | Asks the learned key or the four candidates of each id in chunks, skipping ids whose key cannot be built |
| Detector.EscrowStateDetector.BuildStateChanges | internal/indexer/processors/escrow_state.go:380-454 | One pick per tracked escrow, data entries preferred, echoed keys learned |
| Detector.EscrowStateDetector.ForgetLearnedAmong | internal/indexer/processors/escrow_state.go:300-312 | Forgets exactly the listed ids that had a key and returns them |
| Detector.EscrowStateDetector.KeyCost | internal/indexer/processors/escrow_state.go:128-133 | The charge covers the keys a query would send and lies between 1 and 4 |
| Detector.MissingFrom | internal/indexer/processors/escrow_state.go:284-296 | The requested ids with no change, in request order |
| DetectorLemmas.ChunksJoin | internal/indexer/processors/escrow_state.go:365-374 | Chunks of a key list, laid end to end, are the list |
| DetectorLemmas.PickedIs | internal/indexer/processors/escrow_state.go:380-421 | Of several entries of one tracked escrow in an answer, the first dedicated data entry is picked, or the last instance entry if there is no dedicated one |
| Sweeper.Sweeper.NextBatch | internal/indexer/processors/escrow_sweep.go:53-83 | Batch, cursor and both anchors as specified for the sorted registry and budget |
| Sweeper.Sweeper.Reset | internal/indexer/processors/escrow_sweep.go:95-99 | Back to the top with the filter disarmed |
| SweepGuarantees.PassIsTheSnapshot | internal/indexer/processors/escrow_sweep.go:53-83 | On a fixed registry the batches of a pass concatenate to the sorted snapshot, however the costs move |
| SweepGuarantees.PassLength | internal/indexer/processors/escrow_sweep.go:53-83 | A pass over n escrows takes at most 4n/197 + 1 batches |
| SweepGuarantees.SweepBatchPrice | internal/indexer/processors/escrow_sweep.go:53-83 | The batch handed out costs at most five requests against any RPC |
| SweepGuarantees.FixedRegistryPass | internal/indexer/processors/escrow_sweep.go:53-83 | On a fixed registry the visits from the top on hand out the sorted snapshot, in order and without repeats, and are back at the top within 4n/197 + 1 visits |
| SweepGuarantees.VisitsFollowBatches | internal/indexer/processors/escrow_sweep.go:53-83 | Visit by visit the sweep hands out the batches `PassIsTheSnapshot` and `PassLength` speak of |
| SweepGuarantees.CompletedPassReachesEveryone | internal/indexer/processors/escrow_sweep.go:53-83 | On a growing registry a completed pass asked about everyone it began with |
| SweepGuarantees.NothingHiddenIff | internal/indexer/processors/escrow_sweep.go:62-89 | Of an escrow last read at visit j, with the chain as of `tip`, visit i's filter hides nothing later than tip if and only if the filter is off or the previous pass began at ledger tip + 1 at the latest; it never hides anything when j lies in the current or previous pass |
| SweepGuarantees.PublishedIffPassed | internal/indexer/processors/escrow_state.go:315-326 | A visit whose fetch succeeds publishes the current entry of an escrow it asks about exactly when the filter passes it, key cache and removal guard notwithstanding |
| SweepGuarantees.FirstReadSeesTheChange | internal/indexer/processors/escrow_sweep.go:62-89 | An escrow of the previous pass whose turns since then were all answered is never filtered out when it was modified after what those reads could see |
| SweepGuarantees.SweepPublishesEveryModification | internal/indexer/processors/escrow_state.go:315-326 | That read publishes the escrow on an honest RPC, through cache, filter and guard |
| SweepGuarantees.FreshStarts | internal/indexer/processors/escrow_sweep.go:95-99 | A process begins its sweep, and a reconcile begins it anew, at the top with the filter off |
| SweepGuarantees.ResetDisarmsTheFilter | internal/indexer/processors/escrow_sweep.go:95-99 | From such a start up to the end of the pass that follows, every visit is fetched unfiltered |
| SweepGuarantees.FreshPassReachesEveryone | internal/indexer/processors/escrow_sweep.go:53-99 | A completed first pass after a boot or a reset asked, unfiltered, about everyone tracked at its start |
| SweepGuarantees.FreshPassReportsEveryone | internal/indexer/processors/escrow_sweep.go:91-99 | Its visits answered, that pass reports every escrow tracked at its start that has an entry on chain |
| SweepGuarantees.FailedVisitHidesTheChange | internal/ingest/ingest.go:480-484 | A family of runs in which a sweep fetch fails: the next visit reads the escrow, and once its fetch succeeds, a modification between the last read and the failed visit is neither reported as an update nor as a removal |
| SweepGuarantees.FailedVisitLosesTheChange | internal/ingest/ingest.go:480-484 | And outright, over a node that never fails and never lies: the visit's fetch succeeds, says nothing about the escrow, and would have reported it unfiltered |
| Diary.FreshPassIsPublished | internal/ingest/ingest.go:472-497 | In the diary a lifetime of the loop keeps, whose nodes answered only about what they were asked: the first pass after a boot or a reconcile, nobody removed and its visits answered honestly, puts on the wire the current state of every escrow tracked at its start that has any |
| Diary.ModificationIsPublished | internal/ingest/ingest.go:472-497 | In that diary: a modification after what the previous pass's reads could see is on the wire once the first visit that reads it was answered |
| Diary.NotesVisit | internal/ingest/ingest.go:472-497 | Entering a visit keeps the diary genuine and up to date with the sweep, the ledger and the registry |
| Executor.CommandExecutor.Run | internal/ingest/control.go:61-135 | Registry, mutated flag, pause, sweep reset, fetch and publication of one command; readiness shows the same pause as the executor |
| Executor.CommandExecutor.FetchAndPublish | internal/ingest/control.go:140-155 | A failed fetch is skipped, a failed publish is not; nothing is asked before the first ledger |
| Executor.CommandExecutor.Expire | internal/ingest/control.go:214-218 | A pause past its time is lifted, one still running is not |
| Executor.CommandStamps | internal/ingest/control.go:140-155 | Every state a command publishes is stamped with the last processed ledger, tip state or not |
| Executor.PauseEndsInTime | internal/commands/command.go:151-160 | After any sequence of commands a pause in effect was there before them, none having concerned it, or was asked for by the last one that did, and ends within an hour of it |
| Executor.PauseIsDecidedByTheLast | internal/ingest/control.go:111-122 | The last pause or resume decides: a resume lifts the pause, a pause holds for the time asked up to an hour, or ten minutes if none was asked |
| Control.UnmutatedMeansUnchanged | internal/ingest/control.go:61-135 | A command reporting no mutation left the registry as it was, given disjointness |
| Control.AllUnmutated | internal/ingest/control.go:164-178 | A drain of any queue that reports no mutation left the registry as it was, so skipping its save loses nothing |
| Control.UnmutatedTrackIff | internal/indexer/registry/registry.go:122-137 | Without disjointness an unreported track leaves the registry unchanged exactly when the id is not tombstoned |
| Control.QueriesAreTracked | internal/ingest/control.go:88-100 | A command asks the chain only about ids tracked after it |
| Control.QueriedIff | internal/ingest/control.go:61-155 | A tracking asks about its id, a refresh about its id if tracked, a reseed about every listed id that is tracked or not tombstoned, any other command about nobody |
| Control.LastWordDecides | internal/ingest/control.go:164-178 | Of any queue, the last command that tracks or removes an id decides: it ends up tracked without tombstone, or tombstoned and untracked with a mutation reported |
| Control.UnnamedStays | internal/ingest/control.go:164-178 | An id that no command of a queue tracks or removes keeps its tombstone or lack of one, and is tracked afterwards if it was before, or if a reseed lists it and it is not tombstoned |
| Control.MutatedIff | internal/ingest/control.go:61-135 | A command reports a mutation exactly when it removes, tracks an untracked id, or reseeds one that is neither tracked nor tombstoned |
| Publish.RabbitSink.Publish | internal/sink/rabbitmq/rabbitmq.go:241-298 | One attempt: delivered exactly on a valid envelope, its own ack and no return bearing its id |
| Publish.RabbitSink.CheckReturned | internal/sink/rabbitmq/rabbitmq.go:327-347 | Reads pending returns until one bears this id; finds it exactly if it was there |
| Publish.BackpressureSink.Publish | internal/ingest/backpressure.go:71-100 | Every attempt but the last was a rejection; accepted exactly when the last is an ack and no return of this id was ever seen, unroutable when one was, unavailable when the send failed, cancelled when the context ended in it or in the wait after a rejection, invalid exactly for an invalid envelope; the k-th wait is min(2^k s, 60 s) |
| Delivery.PublishEvents | internal/ingest/ingest.go:435-439 | Envelopes go out in fact order up to the first fatal refusal, each saying its fact field by field: an escrow's own event as event, a transfer to it as deposit |
| Delivery.PublishStates | internal/ingest/ingest.go:465-469 | Envelopes go out in change order up to the first fatal refusal, each with its change's escrow, kind, ledger and raw entry |
| Delivery.PublishGaps | internal/ingest/ingest.go:687-694 | Every gap goes out in record order up to the first fatal refusal, each with its range and reason at the ledger after it |
| Backoff.DoubledIsNextWait | internal/ingest/backpressure.go:88-96 | Doubling under a cap steps through min(2^k s, cap) |
| Envelopes.DecimalInjective | internal/events/envelope.go:74-76 | Decimal printing is injective |
| Envelopes.DecimalReads | internal/events/envelope.go:71-76 | A printed number reads back as itself and has no leading zero |
| Envelopes.EventIdsInjective | internal/events/envelope.go:74-76 | An event id determines transaction hash and index |
| Envelopes.StateIdsInjective | internal/events/envelope.go:101-103 | A state id determines contract and ledger |
| Envelopes.GapIdsInjective | internal/events/envelope.go:126-128 | A gap id determines network and range, for colon-free names |
| Envelopes.FamiliesDisjoint | internal/events/envelope.go:74-128 | No id of one family is an id of another, for hex hashes and C-addresses |
| Envelopes.ClampGapEnvelopeValid | internal/events/envelope.go:134-148 | Every gap from clamping a nonzero start builds a valid envelope anchored at the resume ledger, without overflow |
| Envelopes.FactPublishableIff | internal/events/envelope.go:170-223 | A detected fact is publishable exactly when it is a deposit or its event has a nonempty leading symbol |
| Envelopes.EventPublishableIff | internal/events/envelope.go:170-223 | An event or deposit envelope is valid exactly when network, ledger, contract, transaction, kind and raw event are all there |
| Envelopes.StatePublishableIff | internal/events/envelope.go:170-223 | A state envelope is valid exactly when network, contract, ledger and change are there, and the entry unless it is a removal |
| Envelopes.GapPublishableIff | internal/events/envelope.go:170-223 | A gap envelope is valid exactly when the network and both ends are there, in order, and the gap does not end with the last ledger number |
| Envelopes.UnpublishableFact | internal/events/envelope.go:170-223 | A tracked escrow's event without topics is detected and refused by validation |

## Left out

- LogReplay.OtherRunsAddNothing: says nothing of escrows deployed only in ledgers the crashed run skipped, because their deployment is lost with the ledger and they are tracked only if something else discovers them.
- JSON, XDR, strkey and base64 codecs, the window-error regular expression: library code; texts and entries enter already parsed, and a text that does not parse is a case of its own.
- HTTP, AMQP dialling, TLS, flock, fsync and file permissions: only "a file is replaced whole or not" and "the broker answers one of these" remain.
- HMAC signing and key fingerprints: library cryptography; not part of what a publish means here.
- Health server, metrics, heartbeat, log formatting, configuration loading: plumbing; only the pause shown to readiness is kept, as `shown`.
- Admin routing, authentication and `Validate` of commands: commands reach the executor as arbitrary values, so the theorems also cover ones the admin surface would refuse.
- Pause TTLs beyond what an int64 of nanoseconds holds: the multiplication is unbounded here.
- Replay runs as whole runs: `NullStore` keeps nothing, so the machine models live and bounded backfill processes; the pool's full-range rule and the watchlist reader are modelled on their own.
- Publish and detection timestamps in envelopes: no rule reads them; gaps keep their detection time.
- A wall clock that jumps back: time only passes, by any amount, between any two steps.
- Publisher confirms switched off, and the noop sink: the loop runs over the confirming sink; `RabbitSink.Publish` states what an unconfirmed publish reports.
- Sort stability: `sortByEscrowID` is modelled with later equals kept behind earlier ones; under distinct ids, which every caller of the theorems has, order is unique.
- Hash comparison ignoring letter case: hashes are compared by value.
- `warnedBadIDs` and the failure to marshal a key: they only affect logging; an id either yields its candidate keys or is skipped.
- Schema version fields of the files: no branch depends on them.
- How long the loop runs: a lifetime is observed up to a finite number of loop heads, and a hold up to a finite number of polls, after which the context is cancelled.
- Gaps deleted by an operator from the state file between processes: the files change only through saves.
- The seed file changing between boots: one seed list per deployment.
- `INDEXER_START_LEDGER=0` before the first save: the first ledger is then the one of the first save; the theorems on stamps and crash replay assume a nonzero start or an existing cursor.
- State publications as part of the machine's history: which states a snapshot, a sweep or a command publishes is arbitrary in the machine (only their stamps are fixed); the loop's notes say what each asked, was told and published.
- Routing keys: built from network, kind and event kind of the envelope, and nothing here depends on them.

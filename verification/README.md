# telepathos: durable protocols and their algorithms, in Dafny

This project models the parts of telepathos that keep a promise across crashes, lost
messages and interleavings, and proves the promises. Three programs take part: the
daemon `telepathosd` (Rust), the bridge (Node) and the handset app (Android). A durable
file is a visible value together with every value a power loss may leave
(`Durable.File`); each write ends as written, untouched, or renamed but not synced.

## What is modelled

- **The interaction ledger** (`Ledger`, `LedgerRuns`, `LedgerAccount`, `LedgerSaved`,
  `LedgerRecount`, `LedgerLimits`, `LedgerClock`, `LedgerAnswers`, `LedgerDaemon`). Snapshot, append-only journal and lane
  registry with compaction, pruning, latches and recovery, as step functions over a world
  that may lose power or be relaunched at any moment, and as a class whose methods are
  proved to be those steps. Main results: the daemon always accepts its own files and saved
  counts only grow, also when the clock is set back; every interaction is counted exactly
  once, with the exact condition under which a relaunch can break that; and the whole table
  of answers, with what a client that asks again is told.
- **The interaction outbox** (`Outbox`, `OutboxStore`, `OutboxEffects`, `EndToEnd`,
  `EndToEndDelivery`, `EndToEndLimits`). The bridge's bounded durable queue, as a class proved against step functions, and its
  composition with the daemon: exactly once from end to end, what every call brings
  about, that a delivered turn is never posted again, what it leaves on the daemon's disk, and when a pending turn can be counted twice.
- **The reply acknowledgement** (`ReplyProtocol`, `ReplySafety`, `ReplyErasure`, `ReplyLimits`,
  `ReplyEffects`, `ReplyCourse`). One
  receipt followed through every interleaving of bridge, handsets and delivery row, with
  lossy connections, crashes of each party, ambiguous saves, user suppression,
  ownership transfer, and narration of unclaimed rows as separate steps that fetch, hear
  and consume; what every step brings about, and the whole course of an undisturbed reply. `HandsetReceipts` and `ReceiptStore` hold the handset's list of
  receipts, `BridgeRecords` the bridge's two maps and their snapshot; the methods of both
  classes are proved to act on every single receipt as the protocol model says, in memory,
  latch and file, for every value of the bridge's clock.
- **Delivery** (`Delivery`, `PendingPlayback`). The cursor loop that turns queue rows into
  a reply and a receipt, and the handset's split of a pending snapshot.
- **The capture turns** (`TurnMachine`, `TurnOwnership`, `TurnSafety`, `TurnFrames`,
  `TurnEffects`, with `Reservations` for the outbox side). All sockets between awaits, on the
  real outbox model: who owns each reservation, what a stopped turn may still do, which
  frames a turn sends and in which order, and the whole course of an uninterrupted one.
- **Algorithms**: `Revision` (the registry revision), `LaneMerge` and `DaemonMerge`
  (three-way merges), `Normalization`, `EditDistance` and `LaneMatch` (spoken names),
  `LineReader`, `Whisper` and `WhisperRuns` (the speech worker, over whole runs), `ReplyText` (UTF-8 accounting, against
  section 3 of RFC 3629), `CallbackDispatcher` (callbacks on the handset).

Code that updates objects in place is a class or a method with loops, proved against a
specification function or an outright property; protocols are state machines over steps.

## Assumptions

- Each theorem about runs quantifies over every way each write may end, every clock value
  and every message order. Clocks may be set back. Only the theorems that count each
  interaction once assume that the daemon's clock does not go back (`Timely`, part of
  `Careful`), and `LedgerClock` says exactly what happens when it does.
- An installation has one live socket, message ids and interaction ids are fresh, and
  `prepareReplyAck` is called once per receipt key.
- A crash tears no journal line, a handset's preferences come back as one of the
  snapshots that were committed, and the telepathosd target does not change.
- The delivery queue has rows with increasing sequence numbers, a filtered read and an
  idempotent filtered consume (`relay.rs` is not part of this model).

## Where code and promise differ

- `telepathosd` says that a restart reconciles after an uncertain write
  (`rust/crates/telepathosd/src/main.rs:1019-1022`, `1077-1079`). A start replaces the
  generation file and syncs its directory before it reads anything (`:241`, `:976-977`),
  and the ledger's files lie in the same directory, so every earlier rename is durable from
  then on. What stays open is the end of the journal: a line that was appended and never
  synced is read and counted, and a power loss can still take it away, after which the
  same interaction can be counted again. `LedgerRecount.CountedTwiceExactly` says when:
  exactly when some value of the journal lacks a live line of the visible journal that the
  snapshot does not hold, in a lane whose count is not at its limit. `LedgerLimits` has a
  run, and `EndToEndLimits` the condition and a run for a turn that is still pending in the
  outbox. The counting theorems assume that no relaunch finds such a line (`Careful`);
  acceptance and the growth of saved counts need no such assumption.
- Load prunes expired entries before it reconciles counts, so a count that was journaled
  but never saved is lost with its entry. `LedgerAccount.RecoveredExactly` has the
  condition: the newest interaction of the lane is saved or has not expired.
  `LedgerLimits.UnsavedCountExpires` has a run.
- The bridge may confirm a removal, and the handset then erases its receipt, while a power
  loss can still bring the binding back. `ReplyErasure.ErasesEarlyExactly` says when:
  exactly when the bridge is relaunched over a file that shows no record of the receipt
  and may still fall back to a live binding. A visible tombstone is safe. `ReplyLimits`
  has a run; `ReplySafety.NoReplyLost` holds in any case.
- A daemon whose clock is set back can count an interaction twice: one that expired and left
  the ledger is fresh again once the clock is back inside its window.
  `LedgerClock.SetBackCountsTwiceExactly` has the condition, `ClockSetBackCountsTwice` a run
  in which nothing else goes wrong.
- A bridge whose clock was set back refuses to save a receipt proof exactly when the clock
  is before the preparation, and a consumption exactly when it is before the proof
  (`BridgeRecords.ProofSavable`, `BridgeRecords.ConsumptionSavable`), because the store
  validates the order of the times. Such a refusal changes nothing and a retry meets it
  again until the clock has caught up; bounds and validity of the records hold regardless.
- `persistReplyAckBindings` clears the tombstone map and refills it from a default
  argument that is the same map, so memory forgets its tombstones while the file keeps
  them (`server/src/index.ts:1056`, `server/src/index.ts:1062-1063`). The models follow
  the code: `BridgeRecords.ReplyAckRecords.Persist` and the `SaveOther` step.
- A lane whose name normalises to nothing matches every text in the second tier. This is
  so exactly when the name has no letter and no digit (`LaneMatch.SwallowsExactly`; for
  "!!!" `LaneMatch.PersistedNameSwallows`). Creation refuses such names
  (`rust/crates/lanes/src/lib.rs:270-283`), so only a persisted or merged name can be one.
- A callback that throws leaves later callbacks waiting exactly when some are queued and no
  other thread is on its way to drain (`CallbackDispatcher.ThrowStrands`); the next drain
  recovers them (`CallbackDispatcher.DrainRecovers`).

## Model

| member | source | states |
|---|---|---|
| LedgerRuns.StartupAlwaysAccepts | rust/crates/telepathosd/src/main.rs:759-825 | After any run of requests, lane changes, power losses and relaunches, over synced or unsynced files and with clocks that jump either way, in which every durable write succeeds, fails for certain or fails ambiguously: whatever values a power loss leaves, and the files as they look, are accepted by the daemon at any time; the journal has at most 128 lines, at most 10,000 entries are on disk, and snapshot and journal never hold two different records for one id. |
| LedgerRuns.NextKeeps | rust/crates/telepathosd/src/main.rs:602-825 | Every request, lane change, power loss and relaunch, at any clock value, keeps one generation of records that all values of all files agree with, even when an id is reused after expiry. |
| LedgerRuns.NextAgrees | rust/crates/telepathosd/src/main.rs:602-825 | The step that underlies this: the certain part, the generation and the record in doubt are found for each step, and when the clock has not gone back also every live certain record stays readable in every value of the files. |
| LedgerRuns.ReopenedAgree | rust/crates/telepathosd/src/main.rs:927-985 | A start makes earlier renames durable and leaves only the unsynced end of the journal open; what it reads is again one generation, and the part no journal value lacks stays certain. |
| LedgerRecount.AlwaysRestarts | rust/crates/telepathosd/src/main.rs:759-825 | From any reachable files a relaunch whose own writes succeed comes up, at any clock value, with the records it read, an exactly repaired and saved registry, and no latch. |
| LedgerRuns.AcceptsEveryChoice | rust/crates/telepathosd/src/main.rs:672-737 | Every combination of a snapshot, a journal and a registry that may be on disk folds and is accepted, at any clock value. |
| LedgerRuns.FoldWithin | rust/crates/telepathosd/src/main.rs:693-757 | Folding journal lines that agree with a generation succeeds, loses nothing it started from, and adds only what the lines say. |
| LedgerRuns.CompactKeeps | rust/crates/telepathosd/src/main.rs:642-656 | Snapshot replacement followed by clearing the journal keeps files and memory on one generation, and, with a clock that has not gone back, every live record readable, however each of the two writes ends. |
| LedgerRuns.RecordKeeps | rust/crates/telepathosd/src/main.rs:1647-1817 | Whatever a request ends in, memory and files stay on one generation, at most one new record enters, computed from the pruned ledger, and with a clock that has not gone back no live record is dropped. |
| LedgerAccount.RecoveredExactly | rust/crates/telepathosd/src/main.rs:722-737 | With a non-decreasing clock, every entry saved before it passes the horizon, and no relaunch over a line that can still be lost: the count a lane recovers never exceeds its first count plus the number of distinct interactions durably journaled for it, and equals it if and only if the lane's newest interaction is in the saved count or not yet expired; counts are pairwise distinct per lane. |
| LedgerAccount.NeverCountedTwice | rust/crates/telepathosd/src/main.rs:1693-1765 | After any run with a non-decreasing clock in which no relaunch found a line that could still be lost, an interaction that was ever journaled is never counted again, live or long expired, and resending it adds nothing. |
| LedgerAccount.LargestIsTotal | rust/crates/telepathosd/src/main.rs:875-903 | In such runs the larger of the registry count and the largest journaled live count is exactly the number of interactions counted so far, which is why the next count is one more. |
| LedgerAccount.NextAccounts | rust/crates/telepathosd/src/main.rs:1647-1817 | Every step that does not set the clock back, a relaunch being one that finds no line that can be lost, keeps the counts of a lane equal to 1, 2, 3, … above its first count, each used once, and every value of the registry file between the first counts and the totals. |
| LedgerSaved.CountsOnlyGrow | rust/crates/telepathosd/src/main.rs:1088-1111 | Whatever a step leaves as a value of the registry file, no lane of it is missing or lower than in one of the values the file could have before; any step of any reachable world, relaunches and clocks set back included. |
| LedgerSaved.SavedCountsStay | rust/crates/telepathosd/src/main.rs:722-737 | A count that every value of the registry file has stays in every later value over every continuation, and every later restart recovers at least that count. |
| LedgerSaved.RecoversEverySave | rust/crates/telepathosd/src/main.rs:722-737 | In careful and prompt runs a restart that loses no count recovers at least every count any value of the registry file ever had, also one a power loss took away again. |
| LedgerSaved.AnswerIsSaved | rust/crates/telepathosd/src/main.rs:1647-1817 | In every reachable world an answer counted or duplicate means that every value of the registry file has at least the answered interaction's count for its lane, so no power loss can take it from the count. |
| LedgerAccount.RecordEffect | rust/crates/telepathosd/src/main.rs:1647-1817 | A request counts nothing, or adds exactly the one entry that follows from the ledger it found. |
| LedgerRecount.CountedTwiceExactly | rust/crates/telepathosd/src/main.rs:759-825 | From any reachable files: a relaunch can be followed by a power loss, a restart and a second, larger count of an interaction the relaunched process had counted, sent again no earlier than that restart, if and only if some value of the journal lacks a live line of the visible journal that the snapshot does not hold, in a lane whose count is below its limit. |
| LedgerRecount.LineCountedTwiceExactly | rust/crates/telepathosd/src/main.rs:759-825 | The same for each interaction: it can be counted a second time exactly when its own line can be lost and its own lane can still be counted up. |
| LedgerLimits.UnsettledRelaunchCountsTwice | rust/crates/telepathosd/src/main.rs:759-825 | A concrete run: a process relaunched over an unsynced journal line, followed by a power loss, counts one interaction twice; its relaunch meets the condition of `CountedTwiceExactly`. |
| LedgerLimits.UnsavedCountExpires | rust/crates/telepathosd/src/main.rs:799-823 | A concrete prompt and careful run: a count that was journaled but not saved is missing from a restart more than seven days later. |
| LedgerClock.SetBackCountsTwiceExactly | rust/crates/telepathosd/src/main.rs:1647-1817 | After every careful run, for every journaled interaction and every clock value: sent again it can be counted if and only if it lies inside that clock's window, is not among the live records, and there is room; and then the clock was set back, to before the interaction's expiry from after it. |
| LedgerClock.ClockSetBackCountsTwice | rust/crates/telepathosd/src/main.rs:1647-1817 | A concrete run in which every write succeeds, nothing can be lost and only the last step's clock goes back: one interaction is counted twice. |
| LedgerDaemon.MaxJournaledCount | rust/crates/telepathosd/src/main.rs:875-891 | The loop returns the largest journaled count of the lane. |
| LedgerDaemon.ReplayJournal | rust/crates/telepathosd/src/main.rs:759-825 | The replay loop computes the fold of the journal over the snapshot, and stops on the first conflicting line. |
| LedgerDaemon.ReconcileLanes | rust/crates/telepathosd/src/main.rs:722-737 | The repair loop raises every lane to its largest ledger count and touches nothing else, in whatever order the entries come. |
| LedgerDaemon.Daemon.constructor | rust/crates/telepathosd/src/main.rs:759-825 | A start from acceptable files gives the memory and disk of the specified startup. |
| LedgerDaemon.Daemon.CommitLaneMutation | rust/crates/telepathosd/src/main.rs:1088-1111 | A definite failure restores the registry, an ambiguous one keeps it and latches. |
| LedgerDaemon.Daemon.CompactLedger | rust/crates/telepathosd/src/main.rs:642-656 | Compaction changes memory only when both files are durable. |
| LedgerDaemon.Daemon.RecordInteraction | rust/crates/telepathosd/src/main.rs:1647-1817 | The handler is the specified request step: same checks in the same order, same writes, same answer; the answers are those of the three tables below. |
| LedgerAnswers.Refusals | rust/crates/telepathosd/src/main.rs:1665-1707 | A request that is not looked up changes nothing; the first reason that applies is its answer: latched, invalid registry, unknown lane, more than seven days old, more than five minutes ahead. |
| LedgerAnswers.ResendAnswers | rust/crates/telepathosd/src/main.rs:1725-1762 | With a live record of the id: conflict if and only if lane or creation time differs; otherwise duplicate if and only if the lane's count includes the record's or the repair is saved, an error or a latch as that save ends; nothing else changes. |
| LedgerAnswers.FreshAnswers | rust/crates/telepathosd/src/main.rs:1712-1817 | Without one: compaction of stale records, exhausted count, full journal and full ledger refuse in this order; otherwise the append and then the registry save decide the answer, and a durable append is the new last journal line under one more than every count of the lane. |
| LedgerAnswers.RecordedIsDuplicate | rust/crates/telepathosd/src/main.rs:1725-1762 | After every careful run an interaction once recorded, sent again within seven days to an up and unlatched process, is never a conflict and never counted: duplicate if and only if its count is in the registry or is now saved. |
| LedgerAnswers.AnsweredThenDuplicate | rust/crates/telepathosd/src/main.rs:1725-1762 | A client that was told counted or duplicate and asks again within seven days is told duplicate, after every careful run in between and however writes end. |
| LedgerAnswers.LaneChangeBrings | rust/crates/telepathosd/src/main.rs:1088-1111 | A lane change is refused while a save is unsettled, installed in memory and file once saved, undone by a definite failure, and kept and latched by an ambiguous one. |
| LedgerAnswers.ReadableExactly | rust/crates/telepathosd/src/main.rs:693-757 | A journal reads back over a snapshot exactly when it has at most 128 lines, no count over the limit and no two different records for one id, and then gives every record of both and no other. |
| LedgerAnswers.StartsExactly | rust/crates/telepathosd/src/main.rs:759-825 | A start comes up if and only if the files read back, the registry is valid and knows the lane of each of at most 10,000 recent records, and a needed repair is valid and did not definitely fail; memory is then as stated. |
| LedgerDaemon.Daemon.AppendAndCount | rust/crates/telepathosd/src/main.rs:1765-1817 | Capacity, compaction, append and registry save as specified, in that order. |
| Outbox.SweepKeeps | server/src/interaction-outbox.ts:488-505 | Retrying failed deletions never breaks the queue and never meets a row that is no longer reserved. |
| Outbox.ReserveKeeps | server/src/interaction-outbox.ts:371-387 | Reserving keeps keys unique, memory equal to the visible snapshot and the size within capacity, loses no completed turn, and a latched box never writes. |
| Outbox.PromoteKeeps | server/src/interaction-outbox.ts:389-407 | A promotion that answered and wrote is in every snapshot a crash may leave; one that found the turn already promoted writes nothing, and the turn is in every snapshot exactly if it was before, as it is when the file was durable. |
| Outbox.CancelKeeps | server/src/interaction-outbox.ts:409-427 | A cancelled reservation is deleted or waits for deletion; no completed turn is lost. |
| Outbox.RemoveKeeps | server/src/interaction-outbox.ts:429-440 | Removing a delivered turn affects that turn only; what becomes of it is `OutboxEffects.RemoveBrings`. |
| Outbox.ExpireKeeps | server/src/interaction-outbox.ts:442-456 | Expiry keeps the turn as a terminal row. |
| Outbox.ReloadKeeps | server/src/interaction-outbox.ts:138-178 | A reload reclaims reservations only: every turn whose promotion returned survives it. |
| OutboxEffects.RemoveBrings | server/src/interaction-outbox.ts:429-440 | A delivered turn's pending row is dropped from memory and file, the others keep their order, as the write ends; without a row nothing is done; another creation time or state is refused. |
| OutboxEffects.ExpireBrings | server/src/interaction-outbox.ts:442-456 | The pending row becomes an expired one in its place, as the write ends; an expired one is left; a reserved one is refused. |
| OutboxEffects.PromoteBrings | server/src/interaction-outbox.ts:389-407 | The reserved row becomes pending in its place, as the write ends; a pending one is left; a missing, expired or waiting one is refused. |
| OutboxEffects.CancelBrings | server/src/interaction-outbox.ts:409-427 | The reserved row is dropped and forgotten when written, remembered once when the write definitely failed; other rows are left. |
| OutboxEffects.SweepBrings | server/src/interaction-outbox.ts:488-505 | A sweep that gets through deletes every remembered row and no other, and gets through when every write succeeds. |
| OutboxEffects.ReserveBrings | server/src/interaction-outbox.ts:371-387 | After the sweep: refused while a turn has expired, then when full, repeated without effect, refused for another creation time, and otherwise one more reserved row at the end. |
| OutboxEffects.ReloadBrings | server/src/interaction-outbox.ts:138-178 | A new process holds exactly the completed turns of the snapshot in their order, and comes up if and only if there was nothing to reclaim or that write succeeded. |
| OutboxStore.InteractionOutbox.SweepPendingCleanups | server/src/interaction-outbox.ts:488-505 | The loop over the cleanup map is the specified sweep. |
| OutboxStore.InteractionOutbox.Reserve | server/src/interaction-outbox.ts:371-387 | The method is the specified reserve step, including capacity, expired-row and timestamp checks. |
| OutboxStore.InteractionOutbox.Promote | server/src/interaction-outbox.ts:389-407 | The method is the specified promotion. |
| OutboxStore.InteractionOutbox.CancelReservation | server/src/interaction-outbox.ts:409-427 | The method is the specified cancellation. |
| OutboxStore.InteractionOutbox.RemoveDelivered | server/src/interaction-outbox.ts:429-440 | The method is the specified removal, so `OutboxEffects.RemoveBrings` says what it brings about. |
| OutboxStore.InteractionOutbox.MarkExpired | server/src/interaction-outbox.ts:442-456 | The method is the specified expiry. |
| EndToEnd.ExactlyOnceEndToEnd | server/src/index.ts:322-396 | Over every run of outbox and daemon, with lost answers, clocks set back and restarts of both over synced or unsynced files: a turn whose promotion wrote, or found a durable file, is pending or kept as expired in every snapshot a crash may leave, or was retired; a retired turn was journaled and is included in its lane's count in every value a crash may leave of the registry; and when the daemon's clock never went back and no relaunch of it found a line that could still be lost, no turn is journaled twice. |
| EndToEnd.AnswerIsTrue | rust/crates/telepathosd/src/main.rs:1647-1817 | The daemon answers that a turn is counted or a duplicate only when its ledger holds that very turn. |
| EndToEnd.AnswerIsDurable | rust/crates/telepathosd/src/main.rs:1647-1817 | The answer that lets the bridge drop a turn leaves the turn journaled and counted in every value of the registry file. |
| EndToEndDelivery.DeliveredIsNeverPosted | server/src/index.ts:322-396 | In every run: once an answer is delivered for a pending turn and its removal is written, no row for it is left in memory or in anything a crash may leave, all other rows stay, and it is never posted again unless its key is reserved anew. |
| EndToEndDelivery.RepostIsAnswered | server/src/index.ts:322-396 | In every careful run a pending turn that the daemon once answered, posted again within seven days to an up and unlatched daemon, gets its answer, whatever writes would do. |
| EndToEndDelivery.OldTurnExpires | server/src/index.ts:322-396 | In every run a pending turn more than seven days old is answered as expired by an up and unlatched daemon that knows its lane, and nothing is written. |
| EndToEndDelivery.ExpiredIsKept | server/src/index.ts:322-396 | That answer, delivered and written, keeps the turn as an expired row, and no new turn is reserved then. |
| EndToEndLimits.TurnCountedTwiceExactly | server/src/index.ts:322-396 | In every reachable state with the turn still pending: a relaunch of the daemon can be followed by a power loss, a restart and a post of the pending turn that counts it again if and only if some value of the journal lacks a live visible line about it that the snapshot does not hold, in a lane whose count is below its limit. |
| EndToEndLimits.PendingTurnCanRepeat | server/src/index.ts:322-396 | A concrete run from the initial state: the append's sync fails, the daemon answers unavailable, the turn stays pending, and from there it can be counted twice. |
| ReplySafety.NoReplyLost | server/src/index.ts:1096-1538 | In every reachable state of bridge, handsets and queue: consumed text was heard by some installation, and once a binding was durable the reply was heard, or the row is unconsumed and memory and every value of the file hold a binding that replays it in full. |
| ReplySafety.MachinesInStep | android/app/src/main/java/dev/telepathos/AudioCaptureService.kt:260-485 | A received binding means its owner stored the envelope (or heard it and it was consumed); a retiring receipt means the row was consumed; a receipt ready to acknowledge was heard; a consumed binding or tombstone means the row was consumed. |
| ReplySafety.ErasedOnlyAfterRemoval | server/src/index.ts:1483-1538 | A handset is told to erase its receipt only when no value of the bridge's file still holds a live binding, unless a bridge process started from a file that showed no record and could fall back to a live binding. |
| ReplyErasure.ErasesEarlyExactly | server/src/index.ts:1483-1538 | In every reachable world in which a handset may ask for removal: relaunching the bridge can be followed, however that process goes on, by a confirmed removal while a live binding remains, if and only if the file shows no record and may fall back to a live binding. |
| ReplyLimits.UnsyncedRelaunchErasesEarly | server/src/index.ts:1483-1538 | A concrete run that ends with such an early confirmation. |
| ReplySafety.NextKeeps | server/src/index.ts:1096-1538 | Every step of any party, every message loss, crash, ambiguous save and ownership transfer keeps the protocol invariant. |
| ReplySafety.ReceivedStepCore | server/src/index.ts:1345-1385 | Recording a receipt proof keeps the binding replayable and authorises nothing yet. |
| ReplySafety.TransferStepAgrees | server/src/index.ts:1096-1159 | Moving an abandoned binding to another installation starts it at prepared and breaks no claim of the old owner. |
| ReplySafety.FinishStepCore | server/src/index.ts:1430-1460 | Consumption is recorded only after telepathosd answered. |
| ReplySafety.ChangeAuthority | android/app/src/main/java/dev/telepathos/AudioCaptureService.kt:260-485 | A handset phase that authorises consumption is entered only after hearing, one that authorises removal only after an acknowledgement. |
| ReplySafety.SentFrames | android/app/src/main/java/dev/telepathos/AudioCaptureService.kt:2120-2138 | A handset sends only the frame its durable phase owes. |
| ReplyEffects.PhaseDiagram | android/app/src/main/java/dev/telepathos/AudioCaptureService.kt:260-485 | For every phase and event the phase after a successful save, alone in memory and storage, and the frame sent. |
| ReplyEffects.OtherFramesIgnored | android/app/src/main/java/dev/telepathos/AudioCaptureService.kt:260-485 | A frame that is not the one a phase waits for changes nothing. |
| ReplyEffects.FailedSaves | android/app/src/main/java/dev/telepathos/AudioCaptureService.kt:260-485 | A failed save keeps the phase in memory and sends nothing; a failed suppression stays in memory; storage may hold either. |
| ReplyEffects.RetrySends | android/app/src/main/java/dev/telepathos/AudioCaptureService.kt:2120-2138 | A retry saves what a failed save left, and then sends what the phase owes: a proof, an acknowledgement, a removal request or nothing. |
| ReplyEffects.RetiredIsErased | android/app/src/main/java/dev/telepathos/AudioCaptureService.kt:2359-2374 | A delivered removal confirmation that is saved takes a retiring receipt out of memory and storage; one that is not can be delivered again. |
| ReplyEffects.PrepareBinds | server/src/index.ts:1249-1326 | A new binding is saved alone in memory and file, remembered by the socket, and then the reply is sent. |
| ReplyEffects.PrepareRefuses | server/src/index.ts:1249-1326 | A binding that is not saved is not sent, and neither is a second one. |
| ReplyEffects.HelloReplays | server/src/index.ts:1239-1247 | A hello replays exactly the prepared binding of its own installation, and leaves a binding of someone else who is present or has not abandoned it. |
| ReplyEffects.HelloMoves | server/src/index.ts:1096-1159 | An abandoned unconsumed binding of an absent owner moves to the newcomer at prepared, and is replayed to it, if and only if that is saved. |
| ReplyEffects.ReceiptIsConfirmed | server/src/index.ts:1345-1385 | A receipt proof is confirmed if and only if it was saved, and then is the binding's only value. |
| ReplyEffects.ReceiptIsKnown | server/src/index.ts:1345-1385 | A known proof is confirmed again without a change, any other frame ignored. |
| ReplyEffects.AckAsks | server/src/index.ts:1387-1480 | An acknowledgement starts exactly one consume request for a received binding of an unlatched store, and none before. |
| ReplyEffects.AckAgain | server/src/index.ts:1387-1480 | A consumed reply is acknowledged again, as a binding or a tombstone; nothing else is. |
| ReplyEffects.FinishAcknowledges | server/src/index.ts:1430-1460 | The answer to the current binding records its consumption, alone in memory and file, and acknowledges it. |
| ReplyEffects.FinishRefuses | server/src/index.ts:1430-1460 | An answer whose binding was replaced, or whose save did not succeed, acknowledges nothing and ends the request. |
| ReplyEffects.RetireRemoves | server/src/index.ts:1483-1538 | A requested removal of the owner's consumed binding or tombstone is confirmed if and only if it was saved; a missing record at once; anything else never. |
| ReplyEffects.SweepReclaims | server/src/index.ts:1163-1179 | A sweep turns exactly an expired consumed binding of an absent owner into its tombstone and drops exactly an expired tombstone. |
| ReplyCourse.ReplyCompletes | server/src/index.ts:1096-1538 | From every state with the installation connected, neither side holding a record and the reply not yet asked for: when every save and frame gets through, the twelve steps are possible, the reply is heard, its row consumed, and no record is left in memory or storage of either side. |
| ReplyCourse.NarrationCompletes | android/app/src/main/java/dev/telepathos/AudioCaptureService.kt:1158-1330 | A row no receipt owns can be fetched, spoken, heard and consumed, and touches no record of either side. |
| HandsetReceipts.PhaseNeverGoesBack | android/app/src/main/java/dev/telepathos/AudioCaptureService.kt:260-485 | No event, not even a crash during a failed save, takes a receipt back to an earlier phase. |
| HandsetReceipts.SuppressionCommutesWithProof | android/app/src/main/java/dev/telepathos/AudioCaptureService.kt:330-374 | A user's suppression and the bridge's proof give the same list in either order, whatever else the list holds and whether or not the proved receipt is among the suppressed ones. |
| HandsetReceipts.ResumeUndoesSuppress | android/app/src/main/java/dev/telepathos/AudioCaptureService.kt:358-414 | Re-arming undoes a suppression of receipts that were not suppressed before. |
| HandsetReceipts.PhaseAfterSuppress | android/app/src/main/java/dev/telepathos/AudioCaptureService.kt:358-374 | Suppression changes exactly the phases of the fenced receipts and no text. |
| HandsetReceipts.PhaseAfterResume | android/app/src/main/java/dev/telepathos/AudioCaptureService.kt:402-414 | Re-arming changes suppressed phases back and no text. |
| HandsetReceipts.PhaseAfterWithPhase | android/app/src/main/java/dev/telepathos/AudioCaptureService.kt:309-351 | A phase change of one receipt leaves every other receipt and every text alone. |
| HandsetReceipts.PhaseAfterWithout | android/app/src/main/java/dev/telepathos/AudioCaptureService.kt:452-459 | Completing a retirement removes that receipt only. |
| HandsetReceipts.WithoutLeavesOut | android/app/src/main/java/dev/telepathos/AudioCaptureService.kt:452-459 | Exactly the named receipt goes, and one that was there once leaves its neighbours in their places. |
| HandsetReceipts.SupersededAre | android/app/src/main/java/dev/telepathos/AudioCaptureService.kt:1740-1761 | Superseded are active playback and what the replaced turn was sent and has not played, and nothing else. |
| ReceiptStore.Receipts.Reserve | android/app/src/main/java/dev/telepathos/AudioCaptureService.kt:1913-1973 | Reserving accepts exactly a known receipt with the same text, or a new one that was saved within 65 slots, which is then stored as pending, suppressed if its turn was superseded; on the receipt it is the protocol's step, on all others at most another save. |
| ReceiptStore.Receipts.BeginConfirmedPlayback | android/app/src/main/java/dev/telepathos/AudioCaptureService.kt:2053-2104 | Playback starts if and only if a pending receipt's proof was saved and it is neither fenced nor cancelled; the phase afterwards is stated; on every receipt at once this is the protocol's step. |
| ReceiptStore.Receipts.CompletePlayback | android/app/src/main/java/dev/telepathos/AudioCaptureService.kt:1985-2028 | Hearing marks the receipt ready once saved, and exactly then the acknowledgement leaves; a phase past it repeats its own frame. |
| ReceiptStore.Receipts.SuppressSuperseded | android/app/src/main/java/dev/telepathos/AudioCaptureService.kt:1740-1761 | The fenced receipts are exactly those of the replaced turn and of active playback, each in its suppressed phase afterwards; the suppression stays in memory when its save fails. |
| ReceiptStore.Receipts.Rearm | android/app/src/main/java/dev/telepathos/AudioCaptureService.kt:2250-2270 | Re-arming succeeds exactly when its saves do, and then clears the fence and takes every suppressed receipt back to its phase; otherwise nothing changes. |
| ReceiptStore.Receipts.BeginRetirementOf | android/app/src/main/java/dev/telepathos/AudioCaptureService.kt:2337-2356 | Retirement is requested exactly when it was saved, for a receipt that is ready or already retiring. |
| ReceiptStore.Receipts.RemoveRetired | android/app/src/main/java/dev/telepathos/AudioCaptureService.kt:2359-2374 | Only a retiring receipt is erased, and only when the removal was saved; it is then in neither memory nor storage, and the list is the old one without exactly that receipt. |
| ReceiptStore.Receipts.Retry | android/app/src/main/java/dev/telepathos/AudioCaptureService.kt:2120-2138 | Every receipt's owed frame, stated by phase, is sent, from a saved list only. |
| BridgeRecords.Reclaim | server/src/index.ts:1015-1037 | Reclaiming gives every candidate a tombstone or touches none, and the capacity error inside it is unreachable after the preflight. |
| BridgeRecords.RetainTombstone | server/src/index.ts:990-1003 | A proof is refused exactly when 64 unexpired ones exist and it is not among them. |
| BridgeRecords.ReclaimLosesNothing | server/src/index.ts:1015-1037 | Every binding survives or becomes its owner's tombstone, and no unexpired proof is evicted. |
| BridgeRecords.ReclaimedSound | server/src/index.ts:1015-1037 | The reclaimed snapshot is within both bounds of 64, has disjoint keys, and passes the store's validation, whatever the clock, when no reclaimed binding was consumed after now. |
| BridgeRecords.ProofSavable | server/src/reply-ack-store.ts:135-181 | A receipt proof is savable if and only if the clock has not gone back past the preparation, for every clock value. |
| BridgeRecords.ConsumptionSavable | server/src/reply-ack-store.ts:135-181 | A consumption is savable if and only if the clock has not gone back past the receipt proof. |
| BridgeRecords.SaveView | server/src/reply-ack-store.ts:445-497 | Saving a snapshot is, seen from every single receipt, one protocol save. |
| BridgeRecords.ReplyAckRecords.LaterValid | server/src/index.ts:912-930 | Records none of which is from the future stay so as the clock advances, so operations with a clock that is never set back compose; the records' own validity depends on no clock. |
| BridgeRecords.ReplyAckRecords.NoteSeen | server/src/reply-ack-owner-cache.ts:16-21 | A sighting is the largest of what was known, now and the process start, so a clock set back never makes an owner look absent for longer. |
| BridgeRecords.ReplyAckRecords.Save | server/src/reply-ack-store.ts:445-497 | A latched store writes nothing, an invalid snapshot is refused, an ambiguous write latches. |
| BridgeRecords.ReplyAckRecords.Persist | server/src/index.ts:1054-1069 | For every clock value: a snapshot is refused exactly when it fails the store's validation, and then nothing changes; memory follows only a durable save; a save without its own tombstones forgets them in memory while the file keeps them; and with records none of which is from the future no snapshot without one is refused. |
| BridgeRecords.ReplyAckRecords.Prepare | server/src/index.ts:1249-1326 | For every clock value: a binding is prepared only below capacity and against no binding or tombstone, refused only by a clock before 1970, and durable before it is sent. |
| BridgeRecords.ReplyAckRecords.Receive | server/src/index.ts:1329-1385 | For every clock value: the binding acted on is what the socket remembers, else the shared one; the confirmation is sent exactly when its proof is durable, which the store refuses exactly when the clock is before the preparation; other receipts are at most saved again. |
| BridgeRecords.ReplyAckRecords.Consume | server/src/index.ts:1440-1450 | For every clock value: the acknowledgement is sent exactly when the binding the request started from is current and its consumption was saved, which the store refuses exactly when the clock is before the proof. |
| BridgeRecords.ReplyAckRecords.RetireBinding | server/src/index.ts:1515-1537 | Whatever the clock: removal is confirmed exactly when the owner's consumed binding was durably removed. |
| BridgeRecords.ReplyAckRecords.RetireTerminal | server/src/index.ts:1497-1514 | Whatever the clock: a missing record is confirmed, a tombstone only to its owner after a durable removal. |
| BridgeRecords.ReplyAckRecords.Reconcile | server/src/index.ts:1096-1159 | Whatever the clock: once saved, a binding changes owner if and only if it is unconsumed, its owner is neither the newcomer nor connected, and now is at least the grace period past each of its stored sighting, this process's sighting and the process start; it then starts anew at now. Exactly the bindings consumed at least their retention ago that no request works on become tombstones made now, all or none as they have room, and exactly the tombstones past their retention go. Nothing changes in memory without a durable save; on every receipt at once it is the protocol's transfer step. |
| BridgeRecords.ReplyAckRecords.Sweep | server/src/index.ts:1163-1179 | Whatever the clock: once saved, exactly the bindings of absent owners consumed at least their retention ago that no request works on become tombstones made now, all or none as they have room, and exactly the tombstones past their retention go; on every receipt at once it is the protocol's sweep step for every outcome of its save. |
| BridgeRecords.ReplyAckRecords.Disconnected | server/src/index.ts:1186-1206 | Whatever the clock: closing a socket changes no binding but for last-seen times and no receipt's cell in the file, and once saved every binding of that installation carries this sighting or a later one; memory keeps its tombstones, or has forgotten them all after a durable save that wrote them to the file. |
| BridgeRecords.TransferDecides | server/src/index.ts:1096-1159 | The decision the hello's contract names for each receipt is the one the protocol's transfer step saves. |
| BridgeRecords.SweepDecides | server/src/index.ts:1163-1179 | The decision the sweep's contract names for each receipt is the one the protocol's sweep step saves. |
| Delivery.ReceiptSelectsReply | server/src/hermes.ts:280-364 | At the answering poll a matching row lies in the receipt's range and is unconsumed if and only if its text is in the reply, and no unconsumed matching row lies at or below the lower bound. |
| Delivery.AcknowledgeConsumesExactly | server/src/hermes.ts:486-508 | Acknowledging the receipt at any later time consumes the rows that formed the reply and nothing else. |
| Delivery.AnswerConsumesItsRows | server/src/hermes.ts:280-364 | For every answer the polling loop can give: acknowledging its receipt at any later time consumes exactly the rows whose joined text the answer is. |
| Delivery.AcknowledgeTwice | server/src/hermes.ts:486-508 | Consuming a receipt again changes nothing. |
| Delivery.NothingBehind | server/src/hermes.ts:320-345 | Whatever matching row the cursor moved past had already been consumed by someone else. |
| Delivery.Admit | server/src/hermes.ts:421-454 | A batch is admitted exactly when it is increasing, within its window, exactly correlated and not blank. |
| Delivery.AdmissibleMeans | server/src/hermes.ts:421-454 | Admitted is exactly a batch whose rows ascend within the window, each of this lane, for this message and more than white space. |
| Delivery.CursorFollows | server/src/hermes.ts:320-345 | While nothing comes the cursor is the start or the largest head an admitted batch reported, and never behind one. |
| Delivery.DeliverAndWait | server/src/hermes.ts:280-364 | The polling loop answers with the joined text of the first batch that brings rows, its cursor and last row as the receipt; rejected batches move nothing; an oversized reply is refused; the final range check never fails. |
| Delivery.Collect | server/src/hermes.ts:333-343 | The texts are joined by single spaces, and refused exactly when the whole exceeds the byte limit. |
| Delivery.PartsAreTrimmed | server/src/hermes.ts:333-343 | Each row contributes its trimmed content, in order. |
| Delivery.TrimIs | server/src/hermes.ts:333-343 | Trimmed is the text between the white space around it: only white space goes, and neither end is one. |
| Delivery.JoinedLayout | server/src/hermes.ts:333-343 | In the reply each text stands after the ones before it, with exactly one space in between, and nothing follows the last. |
| PendingPlayback.Parse | android/app/src/main/java/dev/telepathos/AudioCaptureService.kt:130-148 | A snapshot is accepted whole or not at all. |
| PendingPlayback.SplitConserves | android/app/src/main/java/dev/telepathos/AudioCaptureService.kt:164-183 | Each row of the snapshot is on one side only, as often as the snapshot has it: with the receipt that owns it, or narrated when none does; together the halves are the snapshot. |
| PendingPlayback.SplitExactly | android/app/src/main/java/dev/telepathos/AudioCaptureService.kt:164-183 | A row is narrated exactly when no receipt owns it. |
| PendingPlayback.SplitKeepsOrder | android/app/src/main/java/dev/telepathos/AudioCaptureService.kt:164-183 | Both halves keep the queue's order. |
| PendingPlayback.ReceiptRowsAreOwned | android/app/src/main/java/dev/telepathos/AudioCaptureService.kt:165-173 | The rows a receipt keeps from narration are the rows its acknowledgement consumes. |
| Reservations.CancelEffect | server/src/interaction-outbox.ts:409-427 | A cancelled reservation leaves the reserved rows, or stays one of them and waits. |
| Reservations.ReserveEffect | server/src/interaction-outbox.ts:371-387 | A reservation adds its row or nothing, after deleting some waiting ones. |
| Reservations.PromoteEffect | server/src/interaction-outbox.ts:389-407 | A promotion takes its row out of the reserved ones exactly when it succeeds. |
| TurnSafety.ReservationsConserved | server/src/index.ts:1614-1815 | While the outbox is not latched, a row is reserved exactly when one armed capture, one unfinished handler or the pending cleanups own it, and only one of them does. |
| TurnSafety.CapturesAreArmed | server/src/index.ts:1961-2000 | A lane frame never drops a live reservation, and phase capturing implies a current token and reservation. |
| TurnSafety.StoppedTurnIsSilent | server/src/index.ts:1847-1928 | After a stop, a cancel or a closed socket, no transcript, delta or end of the turn it ran or had armed is ever sent again, over every continuation. |
| TurnSafety.StaleHandlerIsInert | server/src/index.ts:812-842 | A handler that lost its turn changes no socket, sends nothing and leaves every other handler alone. |
| TurnSafety.NextKeeps | server/src/index.ts:568-842 | Every frame, continuation, deadline and closing of any socket keeps ownership and turn shapes. |
| TurnFrames.FramesInOrder | server/src/index.ts:647-842 | Over every run the frames of one turn are its transcript, then deltas, then at most one end, all on one socket. |
| TurnEffects.TranscribedSends | server/src/index.ts:700-738 | A good transcription of a current handler whose promotion is written sends exactly one transcript, with the turn pending and durable; any other sends nothing and ends the handler. |
| TurnEffects.AnsweredSends | server/src/index.ts:2104-2141 | A reply of n pieces for a current, uncancelled handler sends exactly n deltas; otherwise nothing is sent and the handler ends. |
| TurnEffects.EndedSends | server/src/index.ts:1560-1612 | A ready end of a current, uncancelled handler sends exactly one end; in any case the handler is gone and a socket it owned listens again. |
| TurnEffects.TurnCompletes | server/src/index.ts:568-842 | From every reachable state with an idle socket and writes that succeed: lane, validation, speech, silence, transcript, reply and end are possible one after another; the frames are one transcript, n deltas and one end, the turn is pending and durable, and the socket listens again. |
| TurnEffects.LaneArms | server/src/index.ts:1961-2000 | An admitted lane frame on an idle socket arms a capture of the next generation and starts its validation. |
| TurnEffects.LaneRefused | server/src/index.ts:1961-2000 | Any other lane frame changes nothing. |
| TurnEffects.ValidationReserves | server/src/index.ts:1754-1786 | A valid lane reserves its row and arms the capture with it. |
| TurnEffects.ValidationFails | server/src/index.ts:1754-1815 | A validation that failed, was refused, found no row or came too late for a silent capture leaves the socket disarmed and without a row; one whose capture is gone changes nothing. |
| TurnEffects.SpeechIsCaptured | server/src/index.ts:568-645 | Speech starts the capture of an armed socket, and silence hands its row to a handler. |
| TurnEffects.EndUtteranceHands | server/src/index.ts:1938-1946 | An end of utterance that names the captured turn does the same, any other nothing. |
| TurnEffects.StopEnds | server/src/index.ts:1847-1928 | A stop or cancel that names the turn, and a closed socket, leave nothing armed and abort exactly the running handler. |
| TurnEffects.DeadlineDisarms | server/src/index.ts:1650-1704 | The deadline disarms exactly a silent capture of its own generation. |
| TurnEffects.CompletedLeave | server/src/index.ts:322-396 | A delivered turn leaves the outbox, an expired one stays as an expired row. |
| ReplyText.JoinedBytes | server/src/reply-text.ts:31-44 | Two joined texts need the sum of their UTF-8 bytes, less two exactly when the cut splits a surrogate pair. |
| ReplyText.Utf8ByteLength | server/src/reply-text.ts:10-28 | The loop over code units returns the length of the text's UTF-8 encoding, unpaired surrogates replaced. |
| ReplyText.ByteAccumulator.Append | server/src/reply-text.ts:35-44 | A piece is accepted exactly when everything so far still fits; a refused piece changes nothing. |
| ReplyText.DeltaStream.Accept | android/app/src/main/java/dev/telepathos/ReplyTextBounds.kt:54-63 | The handset's accumulator decides the same way and keeps the text. |
| ReplyText.DeltaStream.Replace | android/app/src/main/java/dev/telepathos/ReplyTextBounds.kt:65-72 | A replacement is taken exactly when it fits. |
| ReplyText.Chunks | server/src/index.ts:2139-2141 | The pieces of 80 code units rebuild the text. |
| ReplyText.AcceptAll | android/app/src/main/java/dev/telepathos/ReplyTextBounds.kt:31-63 | However a text is cut, all pieces are accepted exactly when the whole fits, and then they equal the terminal text. |
| ReplyText.StreamReply | server/src/index.ts:2116-2137 | The bridge sends every piece of a reply that fits, and nothing of one that does not. |
| Normalization.NormalizeOnePass | rust/crates/lanes/src/meta.rs:20-35 | The daemon's single pass computes the bridge's replace, collapse and trim. |
| Normalization.NormalizeIdempotent | server/src/meta.ts:20-22 | Normalised text is clean, and normalising it again changes nothing. |
| Normalization.EmptyIffWordless | rust/crates/lanes/src/meta.rs:20-35 | A text normalises to nothing exactly when it has no letter and no digit. |
| Normalization.NormalizeKeepsWords | server/src/meta.ts:20-22 | Normalised text has exactly the words of the text, the longest runs of letters and digits, in order, with single spaces between them. |
| EditDistance.Levenshtein | rust/crates/lanes/src/meta.rs:36-52 | The in-place one-row loop computes the recursive edit distance. |
| EditDistance.ZeroOnlyIfEqual | rust/crates/lanes/src/meta.rs:36-52 | Only equal texts are at distance zero. |
| EditDistance.Symmetric | rust/crates/lanes/src/meta.rs:36-52 | The distance is symmetric. |
| EditDistance.Triangle | server/src/meta.ts:24-36 | The distance satisfies the triangle inequality. |
| EditDistance.LengthsApart | rust/crates/lanes/src/meta.rs:36-52 | Two texts are at least as far apart as their lengths. |
| EditDistance.FewestEdits | rust/crates/lanes/src/meta.rs:36-52 | The distance is the length of a shortest sequence of insertions, deletions and substitutions of one character that turns one text into the other. |
| LaneMatch.MatchLane | rust/crates/lanes/src/meta.rs:56-86 | The three tiers in order: the first exact lane, else the first contained one, else the nearest within its tolerance, the first among equals; None exactly when there is none. |
| LaneMatch.ClosestLane | server/src/meta.ts:53-62 | The third tier returns the first lane of least distance among those within tolerance. |
| LaneMatch.TierRules | rust/crates/lanes/src/meta.rs:56-86 | Exact is equality with the name, with or without spaces, or with the id; containment is an occurrence, with or without spaces; near is at most two edits, or a third of the name's length, away, with or without spaces. |
| LaneMatch.FlatOfPieces | rust/crates/lanes/src/meta.rs:56-66 | Dropping spaces works piece by piece. |
| LaneMatch.FlatDropsSpaces | rust/crates/lanes/src/meta.rs:56-66 | Nothing but spaces is dropped, and all of them. |
| LaneMatch.NamesOne | rust/crates/lanes/src/meta.rs:56-86 | The three-tier rule never leaves a choice. |
| LaneMatch.EmptyNameSwallows | rust/crates/lanes/src/meta.rs:68-73 | A lane whose name normalises to nothing catches every utterance that no lane names exactly, unless an earlier lane does. |
| LaneMatch.SwallowsExactly | rust/crates/lanes/src/meta.rs:56-86 | A lane on its own answers every utterance if and only if its name has no letter and no digit. |
| LaneMatch.Overshadowed | rust/crates/lanes/src/meta.rs:68-73 | An utterance that contains a lane's name, and alone would reach it, goes to a nameless lane in front of it. |
| LaneMatch.PersistedNameSwallows | rust/crates/lanes/src/meta.rs:68-73 | A concrete registry with the name "!!!" in which a request for another lane is swallowed. |
| LaneMatch.CreatedNamesAreWords | rust/crates/lanes/src/lib.rs:270-283 | A name that creation accepts does not normalise to nothing. |
| LaneMatch.ContainsExactly | rust/crates/lanes/src/meta.rs:68-73 | Containment means an occurrence at some position. |
| Revision.RevisionIsAbaSafe | rust/crates/telepathosd/src/main.rs:927-1111 | Over all observations ever made under the registry lock, across restarts, power losses, failed saves and rollbacks, equal revisions mean equal selections; every revision is at most 2^53-1 and inside its generation. |
| Revision.MutationBrings | rust/crates/telepathosd/src/main.rs:1571-1607 | In every reachable serving process a saved mutation installs its selection, under a revision newer than everything observed if the selection changed and the same one otherwise; it is refused exactly while a save is unsettled or the process's last revision is used up; a failed save changes nothing, an ambiguous one keeps it and blocks further ones. |
| Revision.StartBrings | rust/crates/telepathosd/src/main.rs:927-985 | A start whose generation is saved serves what it loaded under the first revision of the next generation, newer than everything observed, exactly while generations remain. |
| Revision.AdvanceStays | rust/crates/telepathosd/src/main.rs:991-1007 | Advancing fails exactly on the last low value, and otherwise stays in its generation. |
| Revision.SeedStartsGeneration | rust/crates/telepathosd/src/main.rs:927-985 | A seed exists exactly while generations remain, and leaves all its mutations within the limit. |
| Revision.RegistryRevision.Advance | rust/crates/telepathosd/src/main.rs:991-1007 | The atomic update advances by one or leaves the revision alone. |
| Revision.RegistryRevision.Commit | rust/crates/telepathosd/src/main.rs:1571-1607 | One mutation from check to save: success exactly when it is unblocked and written, one revision later if the selection changed; refusal, latch or rollback of selection and revision together. |
| LaneMerge.MergeMetaLaneProposal | server/src/meta-lane-merge.ts:45-97 | The loops compute the merged registry, fail on capacity exactly when additions do not fit, and refuse a selection that is gone. |
| LaneMerge.UnchangedProposal | server/src/meta-lane-merge.ts:45-97 | An unchanged proposal yields the current registry, whatever others did. |
| LaneMerge.UnchangedCurrent | server/src/meta-lane-merge.ts:45-97 | An unchanged current registry yields the proposal. |
| LaneMerge.EachLaneMerged | server/src/meta-lane-merge.ts:18-35 | No current lane is dropped or reordered, and each of name, creation time, last activity and interactions takes the proposal exactly when the proposal alone changed it. |
| LaneMerge.NewLanesFollow | server/src/meta-lane-merge.ts:68-82 | The current lanes are followed by exactly those of the proposal that neither the base nor the current registry knows, in the proposal's order. |
| LaneMerge.SelectionMerged | server/src/meta-lane-merge.ts:83-97 | The selection follows the proposal exactly when it changed it and the revision did not move. |
| LaneMerge.RefusedWhen | server/src/meta-lane-merge.ts:75-97 | Capacity refuses exactly when there are new lanes and more than 256 in all; a merged selection exists. |
| LaneMerge.MergeIdempotent | server/src/meta-lane-merge.ts:45-97 | Merging the same proposal again changes nothing. |
| LaneMerge.MergeWithinCapacity | server/src/meta-lane-merge.ts:75-82 | The merge stays within 256 lanes. |
| DaemonMerge.LiveRegistry.MergeModel | rust/crates/telepathosd/src/main.rs:2013-2056 | The in-place merge is the specified one, and changes nothing when its additions would not fit. |
| DaemonMerge.MergeKeepsValid | rust/crates/telepathosd/src/main.rs:2013-2056 | The merged registry passes the daemon's own validation when no lane of the base was removed. |
| DaemonMerge.MergeAllKeeps | rust/crates/telepathosd/src/main.rs:2034-2050 | Merging keeps ids unique and current lanes in place, adds at most what the preflight counted, and leaves every new lane present. |
| DaemonMerge.CurrentLanesFollow | rust/crates/telepathosd/src/main.rs:2034-2050 | Each current lane stands where it stood, as the proposal has it when the base has it just as it is now and the proposal knows it, and otherwise as it is. |
| DaemonMerge.NewLanesAppended | rust/crates/telepathosd/src/main.rs:2034-2050 | The new lanes follow, the same and in the same order as in the bridge's merge. |
| DaemonMerge.SameSelection | rust/crates/telepathosd/src/main.rs:2051-2054 | When an unchanged revision means an unchanged selection, bridge and daemon select the same lanes. |
| LineReader.ReadOn | server/src/transcriber.ts:101-129 | Reading a stream in two parts is reading it at once. |
| LineReader.BoundedNdjsonReader.Push | server/src/transcriber.ts:107-129 | One chunk delivers exactly the lines it completes, and stops at the first line over the cap. |
| LineReader.ReadAll | server/src/transcriber.ts:101-129 | For every way to cut a byte stream the lines delivered are those of the whole stream. |
| LineReader.LinesAreLines | server/src/transcriber.ts:101-129 | Each delivered line has no newline, is within the cap, and was accepted unless reading stopped at it. |
| LineReader.LinesCutStream | server/src/transcriber.ts:101-129 | A reading that goes on has delivered the stream, cut at its newlines and nowhere else, and keeps the rest. |
| LineReader.LinesStopAt | server/src/transcriber.ts:101-129 | A reading that stopped delivered the stream's first lines, up to the first refused one or to where the next is over the cap. |
| Whisper.LocalWhisper.Settle | server/src/transcriber.ts:221-231 | A request is settled at most once. |
| Whisper.LocalWhisper.FailWorker | server/src/transcriber.ts:256-268 | A broken process fails exactly the requests it owns. |
| Whisper.LocalWhisper.RejectPendingFor | server/src/transcriber.ts:233-237 | The loop rejects the whole ownership set and nothing else. |
| Whisper.LocalWhisper.Abandon | server/src/transcriber.ts:194-219 | A given-up request is settled once; others go on unless 128 late answers are already owed. |
| Whisper.LocalWhisper.ExpectLateAnswer | server/src/transcriber.ts:239-248 | At most 128 late answers are expected of a process. |
| Whisper.LocalWhisper.HandleLine | server/src/transcriber.ts:276-338 | Reading goes on exactly for a good ready line, a response to a pending request of this process, and a late answer owed; the response settles its request with its transcript or failure and nothing else; any other line fails exactly this process. |
| Whisper.LocalWhisper.AbsorbLate | server/src/transcriber.ts:305-311 | A late answer is taken exactly when this process still owes it, and uses up that allowance. |
| Whisper.LocalWhisper.OnExit | server/src/transcriber.ts:363-368 | An exited process leaves none of its requests pending. |
| Whisper.LocalWhisper.Ensure | server/src/transcriber.ts:340-348 | A worker that can no longer be written to fails everything it owns, and nothing else, before another takes its place. |
| WhisperRuns.WorkerHost.OnData | server/src/transcriber.ts:351-357 | A chunk of the current worker adds to its stream, every answer so far is the transcript of a complete line in its own process's stream, and while the worker stays current all its complete responses have settled their requests; a chunk of any other process changes nothing. |
| WhisperRuns.Run | server/src/transcriber.ts:194-371 | Over every sequence of starts, chunks cut anywhere, cancellations, timeouts, failures and exits: each request that began is pending or was settled exactly once, and was settled if it was given up; it absorbed at most one late answer, and only when given up; each answer is the transcript of a line its own process wrote; and every complete response line of the current worker belongs to a settled request of its own. |
| CallbackDispatcher.FifoExactlyOnce | android/app/src/main/java/dev/telepathos/LocalAnnouncer.kt:195-239 | Under every interleaving callbacks run in order, each once; at most one activation of the loop drains, nested ones included; and waiting callbacks have a drainer or a thread on its way, unless a throw stranded them and nobody has drained since. |
| CallbackDispatcher.ThrowStrands | android/app/src/main/java/dev/telepathos/LocalAnnouncer.kt:231-236 | In every reachable state a step leaves callbacks waiting with nobody coming exactly when it is a throw with callbacks queued and no thread on its way. |
| CallbackDispatcher.DrainRecovers | android/app/src/main/java/dev/telepathos/LocalAnnouncer.kt:211-238 | From every reachable state without a drainer the next drain runs all that waits, in order, when no callback throws. |
| CallbackDispatcher.ReplyCallbacks.Complete | android/app/src/main/java/dev/telepathos/LocalAnnouncer.kt:251-256 | The first completion takes its outcome and removes both, so no id fires twice. |
| CallbackDispatcher.ReplyCallbacks.Register | android/app/src/main/java/dev/telepathos/LocalAnnouncer.kt:245-248 | Registering stores both outcomes. |

## Left out

- Progress: that an acknowledgement eventually completes, a retry is eventually sent or a reply is eventually heard. The identity check at `server/src/index.ts:1441` may drop a successful consume and leave it to a retry.
- A relaunch of the daemon over a journal line that can still be lost: outside the exactly-once theorems, with the exact condition and the failing run given above; acceptance and saved counts include it.
- Torn journal lines: a crash that leaves half a line makes the daemon refuse to start, and is not modelled.
- Retention of tombstones in the bridge's memory: not claimed, because the code drops them; only bounds and disjointness are.
- HTTP, WebSocket and TLS handling, tokens, environment reading, JSON and Unicode lowercasing: records are parsed values, text is already lowercased.
- Changes of the telepathosd target: the target is fixed.
- `relay.rs`: not part of this model; the delivery queue is specified abstractly.
- Pruning of owner sightings (`server/src/reply-ack-owner-cache.ts:27-42`): the map of sightings only grows here, so a forgotten sighting of an owner without records is not modelled.
- Speech, audio capture, playback engines and voice detection: text to speech is a step that ends heard or failed, voice detection an input.
- Repeat (`replayLast`) and the meta-mode flags of a socket: turn isolation covers turns that started with a capture.
- The turn machine as objects: sockets are values in a map and each step between two awaits is a function, so aliasing inside one `ClientState` is not captured.
- The bounded set of seen turn tokens: whether a lane frame's token is new is an input of the step.
- The bridge's retry timers: a retry is a step that may happen at any time.
- The bridge's lane file (`server/src/lanes.ts`) and lane creation, switching and slugs: the daemon's registry revision and both merges are modelled instead.
- The meta agent's tool loop, the command grammar, notes and forks: easy members.
- `PendingInbox.consume` and the meta inbox readout.
- LedgerAccount.RecoveredExactly: the daemon's clock must not go back during the run, and entries that pass the seven-day horizon must have reached the saved registry before, because load prunes before it reconciles; for the last restart the exact condition is proved.
- EndToEnd.ExactlyOnceEndToEnd: a promotion that only finds its turn pending in an unsynced file is not counted as promised; it writes nothing, and that file may still fall back.
- Delivery.AcknowledgeConsumesExactly: assumes every admitted batch is what the queue held at that moment.
- WhisperRuns.Run: what a line says is a parameter (`parse`), so JSON and UTF-8 decoding are not modelled; the line reader enters through its specification, to which `LineReader` proves the loop equal.
- Whisper.LocalWhisper.Begin: takes the worker chosen before the recording was written, so that worker may be gone; spawning is an input.

# Pootown: the room log and the account-coin economy

Pootown is a multiplayer board game with two durable authorities that must agree. A **game server** runs
each room: instances compete for a lease with a fencing token, keep the game in memory, and commit every
command by compare-and-swap on a checkpoint. An **API** keeps account coins, reservations, seats, tickets
and the session lifecycle. This project models the protocols of both and proves what every run of them
guarantees. The board rules stay abstract: a transition is any deterministic partial function that moves
the state version up by one.

## How it is organised

| files | contents |
|---|---|
| `Outcomes`, `Sums` | small value types; sums over finite maps |
| `JsonText`, `CanonicalJson`, `JsonReader` | JSON text, unique decoding, the canonical encoding that requests are hashed by, and a reader that undoes it |
| `SecureRandom` | the counter-mode generator, its checkpoints and forks |
| `RoomClock` | the scheduler of a room's internal commands |
| `RoomTables`, `RoomStore` | one room's tables: each transaction as a step, and the repositories as they run |
| `RoomLog`, `RoomGuarantees` | any number of handlers over those tables, and what their runs guarantee |
| `RoomEvents`, `RoomLeases`, `RoomAnswers` | the events table, what a lease excludes and permits, and exactly when a room's reads and commits succeed |
| `LockOrder` | the locks the API's transactions take, and freedom from deadlock |
| `CoinBank` | accounts, the double-entry ledger, reservations, and the movements of coins |
| `Sessions` | the API's tables and each transaction as a step; runs are sequences of steps |
| `CoinApi`, `Reconciler` | the services as they run, row by row with rollback; the reconciler's loops |
| `Seating`, `Growth`, `Admissions`, `Records`, `Rescues` | the parts of the invariant and how each effect keeps them |
| `Soundness`, `SessionGuarantees` | every transaction keeps the whole invariant; what every run guarantees |
| `EndingAnswers`, `AdmissionAnswers`, `Replays` | exactly when each transaction succeeds, all that it changes, and how a repeated request is answered |
| `LiveRooms`, `Authorities` | the room and the API together: who is paid, what is finalized, and who may end a stake |

The classes `RoomRepository`, `SecureRandomSource` and `CoinStore` have the source's fields and update them
in place; every method is proved equal to a step function on values, and the guarantees are proved of those.

Assumptions: a transaction is atomic; `(actor, scope, key)` and `(room, player, requestId)` are unique; a
hash identifies what it digests; generated identifiers and ticket values are fresh; a new account holds
zero. Clock values are arguments, so no guarantee depends on a clock unless it says so. Configuration is
what `apps/api/src/config/api-config.ts` admits: positive grants and window, and an initial grant no
smaller than the rescue balance.

## What the proofs found

- `canonicalJson` sorts keys with `localeCompare`, which ranks some different keys alike (a composed and a
  decomposed accent). As a function on all trees it can therefore give one object several texts:
  `CanonicalExactly` says exactly which trees are safe and `TwoSpellingsOfOneLetter` is a failing one. The
  code never meets such a tree. It is only called on parsed commands, whose schemas are strict and use
  seventeen fixed ASCII keys, so `CommandReplayGoesByContent` needs nothing but a collation that ranks
  those seventeen apart. Equal texts always mean equal trees, whatever the collation.
- `releaseExpiredAdmission` can never release anything, and presenting a ticket never inserts a seat: a
  reserved reservation of an open session always has its seat.
- The errors "cannot be captured" and "cannot be released" cannot happen. In the model, which has no CHECK
  constraints on timestamps, a release fails only if the available balance would pass 10^78 - 1. In the
  database it also fails if the clock has fallen behind the reservation's creation (`terminal_at >= created_at`).
- `canResume` accepts every checkpoint a run reaches, up to the safe-integer bound, but also figures no
  run reaches; `AttainableExactly` gives the reachable ones.
- The lifecycle values `cancelling` and `settling` exist only inside a transaction.
- The recovery marks take an advisory lock under a different key than every other session transaction. They
  are still ordered with those by the session row, and waiting still has no cycle.
- Not every lock is taken in one global order: leaving locks the reservation before the tickets, presenting a
  ticket the other way round. What prevents deadlock is that both hold the session row first. A ticket
  presented to the wrong session is locked without it, but then the transaction takes no further lock.

## Model

| member | source | states |
|---|---|---|
| `CanonicalJson.CanonicalIsFaithful` | apps/game-server/src/persistence/command-repository.ts:77-97 | Equal canonical texts come only from trees that are equal up to the order of object entries, for any collation. |
| `CanonicalJson.CanonicalExactly` | apps/game-server/src/persistence/command-repository.ts:77-97 | A tree has one canonical text for all its entry orders if and only if no object in it has two keys that the collation ranks alike. |
| `CanonicalJson.CanonicalIffSame` | apps/game-server/src/persistence/command-repository.ts:77-97 | On trees whose keys are told apart, equal texts and equal trees are the same thing. |
| `CanonicalJson.TwoSpellingsOfOneLetter` | apps/game-server/src/persistence/command-repository.ts:77-86 | A concrete object, not one that any command schema admits, to which the function gives two texts. |
| `CanonicalJson.KnownKeysAreDistinguished` | packages/game-contracts/src/realtime/gameplay-commands.ts:12-93 | A collation that ranks a set of keys apart tells apart the keys of every tree made of them. |
| `JsonText.Decodes` | apps/game-server/src/persistence/command-repository.ts:77-97 | The encoding decodes uniquely: a text followed by anything determines the tree and what follows. |
| `JsonReader.ReadsBack` | apps/game-server/src/persistence/command-repository.ts:77-97 | A reader written from RFC 8259 reads the text of every tree, up to a delimiter, back as that tree: escapes, surrogates, numbers and literals included. |
| `JsonReader.CanonicalReadsBack` | apps/game-server/src/persistence/command-repository.ts:77-97 | Reading a canonical text gives the value it was made of, up to entry order, with the entries of every object in the collation's order. |
| `SecureRandom.ConsumptionEnvelope` | apps/game-server/src/random/secure-random-source.ts:12-18 | In every run: draws <= counter <= bytes, counter >= ceil(bytes / 32), bytes <= 4096 * draws, all zero together, and 32 * counter <= bytes + 31 * draws. |
| `SecureRandom.ReachedCheckpointsResume` | apps/game-server/src/random/secure-random-source.ts:73-88 | A reached checkpoint can be resumed if and only if the byte count is a safe integer. |
| `SecureRandom.ResumedRandomnessIsTheSame` | apps/game-server/src/random/secure-random-source.ts:53-98 | Stopping anywhere and continuing from the checkpoint gives the same bytes and later checkpoints as never stopping. |
| `SecureRandom.NoBlockServesTwoDraws` | apps/game-server/src/random/secure-random-source.ts:53-71 | Two draws of a run never use the same counter message; `SecureRandom.OutputBytes` says that these are the messages the draws hash. |
| `SecureRandom.OutputBytes` | apps/game-server/src/random/secure-random-source.ts:53-71 | Byte k of draw i of a run is byte k mod 32 of the keyed hash of the eight-byte big-endian counter that stands k / 32 blocks after the draw began, for every keyed hash. |
| `SecureRandom.NoBlockRepeats` | apps/game-server/src/random/secure-random-source.ts:53-71 | If the keyed hash has no collision on eight-byte messages, no whole block of a run's output, in one draw or in two, equals another. |
| `SecureRandom.CanResumeExactly` | apps/game-server/src/random/secure-random-source.ts:73-88 | Which checkpoints can be resumed, as inequalities on the figures. |
| `SecureRandom.AttainableExactly` | apps/game-server/src/random/secure-random-source.ts:12-18 | Which counter, draw and byte figures some run reaches: both directions. |
| `SecureRandom.CanResumeAcceptsMore` | apps/game-server/src/random/secure-random-source.ts:82-88 | A checkpoint that is accepted although no run reaches it. |
| `SecureRandom.SecureRandomSource.NextBytes` | apps/game-server/src/random/secure-random-source.ts:53-71 | Accepts exactly 1 to 4096 bytes; every byte returned is the stated byte of the keyed hash of the running counter, and the three counters move by blocks, one draw and the length; a refused length changes nothing. |
| `SecureRandom.SecureRandomSource.ForkFrom` | apps/game-server/src/random/secure-random-source.ts:90-98 | A fork depends only on the checkpoint and leaves its parent unchanged. |
| `RoomClock.NextScheduledRoomCommand` | apps/game-server/src/timers/room-clock.ts:51-86 | What is returned is a timed duty of the game, with the state's version and the id made of game, kind, time and version. It is due if and only if some duty is due, else it is the earliest of all; no duty that is due, or falls due at the same moment, is more urgent: game limit, turn end, ten-second warning, thirty-second warning, expired trade. |
| `RoomClock.SchedulerChoice` | apps/game-server/src/timers/room-clock.ts:51-86 | The choice is an obligation; it is due if any is due; a due game limit wins; if nothing is due it is the earliest of all. |
| `RoomClock.ChoiceUnique` | apps/game-server/src/timers/room-clock.ts:51-86 | State and time determine the command. |
| `RoomClock.WarningsInOrder` | apps/game-server/src/timers/room-clock.ts:31-49 | For one deadline and a clock that never falls, each warning comes at most once and 30 never after 10. |
| `RoomTables.CommitExactly` | apps/game-server/src/persistence/command-repository.ts:145-300 | A commit changes the tables exactly when it is accepted; the events table then has the old rows, the new ones and no other. |
| `RoomStore.RoomRepository.CommitTransaction` | apps/game-server/src/persistence/command-repository.ts:145-300 | Checkpoint, event loop, command row, proof and outbox row, rolled back together, are the one commit step; after a new command every event is in the table beside the old ones. |
| `RoomStore.RoomRepository.AcquireLease` | apps/game-server/src/persistence/room-lease.ts:45-109 | The lease is handed out if and only if there is none, or the game is the same and the asker holds it or it has ended; a running lease keeps its token and an ended one gets the next; checkpoint and presence rows follow. |
| `RoomStore.RoomRepository.LoadCheckpoint` | apps/game-server/src/persistence/checkpoint-repository.ts:156-199 | Loading checks ownership, checksum, size and version, and changes nothing. |
| `RoomStore.RoomRepository.MarkRoomAllOffline` | apps/game-server/src/persistence/presence-repository.ts:37-67 | The presence upsert under the owned lease. |
| `RoomLog.RefinesStep` | apps/game-server/src/commands/command-handler.ts:402-615 | Every step of any instance, crash, lost reply, takeover or retry keeps the refinement to one log. |
| `RoomGuarantees.LogRefinement` | apps/game-server/src/commands/command-handler.ts:402-615 | The checkpoint is the transition folded over the committed commands in version order; every handler's memory is the state at its own version, never ahead. |
| `RoomGuarantees.StaleHandlerCannotCommit` | apps/game-server/src/persistence/command-repository.ts:163-224 | A handler behind the checkpoint changes nothing by committing. |
| `RoomGuarantees.TerminalProofIsHistorical` | apps/game-server/src/persistence/command-repository.ts:236-254 | A terminal proof is the verdict on a state of the one machine, with that state's checksum. |
| `RoomGuarantees.FencingState` | apps/game-server/src/persistence/room-lease.ts:45-155 | One owner for each token; checkpoint and presence tokens equal the lease row's. |
| `RoomGuarantees.SupersededForever` | apps/game-server/src/persistence/room-lease.ts:45-155 | After a higher token is granted, no write under an older lease succeeds, for any clock values. |
| `RoomGuarantees.SaveAdvances` | apps/game-server/src/persistence/checkpoint-repository.ts:113-154 | `save` can only move the version up. |
| `RoomGuarantees.VersionsAreContiguous` | apps/game-server/src/persistence/command-repository.ts:163-300 | Committed versions are contiguous and no request is in the log twice. |
| `RoomGuarantees.CheckpointMovesWithTheLog` | apps/game-server/src/persistence/command-repository.ts:190-224 | The checkpoint's content changes only with one new log entry. |
| `RoomGuarantees.AnsweredOnceForEver` | apps/game-server/src/persistence/command-repository.ts:117-143 | A committed request gets its first acknowledgement for ever, across takeovers; other content is refused; nothing changes. |
| `RoomGuarantees.ReplayGoesByContent` | apps/game-server/src/persistence/command-repository.ts:95-143 | A replay is recognised exactly when the command is the same up to entry order, if its keys are told apart. |
| `RoomGuarantees.CommandReplayGoesByContent` | packages/game-contracts/src/realtime/gameplay-commands.ts:12-93 | For parsed commands no condition on the tree is left: a replay is recognised exactly when the command is the same up to entry order, if the collation ranks the schemas' keys apart. |
| `RoomGuarantees.EndingsReachTheOutbox` | apps/game-server/src/persistence/command-repository.ts:273-294 | Every committed leave or cancel has its outbox row, and nothing else has one. |
| `RoomEvents.EventsAreTheLog` | apps/game-server/src/persistence/command-repository.ts:226-235 | In every run each log entry acknowledged one id for each payload of the transition from the state folded over the entries before it; each id is stored with that payload at version origin + i + 1; every row belongs to exactly one entry. |
| `RoomAnswers.CommitSucceedsIff` | apps/game-server/src/persistence/command-repository.ts:145-300 | In every run a handler's commit goes through if and only if its lease is running, its memory is the newest state, the command was made for that state and is not in the log, the successor can be stored, its event ids are new, and there is no proof yet if it ends the game. |
| `RoomAnswers.DuplicateExactly` | apps/game-server/src/persistence/command-repository.ts:172-188 | In every run a commit is answered as a duplicate if and only if the log has the command, with the acknowledgement it got then. |
| `RoomAnswers.CommittedEntersTheLog` | apps/game-server/src/commands/command-handler.ts:530-547 | Exactly a commit that goes through adds its command to the log; the handler then has the folded state if the reply arrived, else its old one; every other ending only drops what was pending. |
| `RoomAnswers.SubmittedIsPending` | apps/game-server/src/commands/command-handler.ts:406-490 | A command is computed from the handler's memory exactly when the lease is running, the log does not have it, and the rules allow it. |
| `RoomAnswers.LoadExactly` | apps/game-server/src/persistence/checkpoint-repository.ts:156-199 | The holder of a running lease loads the fold of the whole log unless its version has left the safe integers; anyone else is refused. |
| `RoomAnswers.LoadedIsNewest` | apps/game-server/src/persistence/checkpoint-repository.ts:156-199 | A handler that loads has exactly that state in memory and nothing pending. |
| `RoomAnswers.InitializeExactly` | apps/game-server/src/persistence/checkpoint-repository.ts:73-111 | A room is set up exactly once, under a running lease, with a version and a size that can be stored. |
| `RoomAnswers.NewRequestExactly` | apps/game-server/src/persistence/command-repository.ts:117-143 | A request is new if and only if the lease is running and the log does not have it. |
| `RoomAnswers.ProofExactly` | apps/game-server/src/persistence/command-repository.ts:236-254 | In every run a proof is on record for version v if and only if the committed state of that version has a verdict; it carries that verdict and checksum, and there is no second one. |
| `RoomLeases.AcquireExactly` | apps/game-server/src/persistence/room-lease.ts:45-109 | When a lease is handed out, with which token and until when, and that nothing else moves unless it changes hands. |
| `RoomLeases.TakeoverExactly` | apps/game-server/src/persistence/room-lease.ts:79-98 | When it changes hands the checkpoint and presence rows get the new token and the room counts as offline since it was, or since the old lease ended. |
| `RoomLeases.RenewAndReleaseExactly` | apps/game-server/src/persistence/room-lease.ts:111-155 | Renewing and releasing work for the holder of a running lease and for nobody else, and change only how long it runs. |
| `RoomLeases.LiveLeaseExcludes` | apps/game-server/src/persistence/room-lease.ts:75-80 | Over any further steps: while every other instance that asks finds the lease still running, its holder keeps the room; while the holder asks in time too, under the same token, which then works exactly until the row says. |
| `RoomLeases.EndedLeaseIsTaken` | apps/game-server/src/persistence/room-lease.ts:79-108 | A lease that has ended is taken by anyone who asks, under the next token, and no older lease ever works again. |
| `RoomLeases.EndedIsPowerless` | apps/game-server/src/persistence/room-lease.ts:128-155 | At an instant when the lease has ended no use of any lease writes or reads anything. |
| `RoomLeases.ConnectedExactly` | apps/game-server/src/persistence/presence-repository.ts:12-35 | A connection clears both instants and returns since when everybody was away. |
| `RoomLeases.OfflineExactly` | apps/game-server/src/persistence/presence-repository.ts:37-67 | The first offline mark sets the deadline 120 seconds ahead, a later one returns the one that stands; past the largest date it is refused. |
| `RoomGuarantees.ReconnectWindow` | apps/game-server/src/persistence/presence-repository.ts:12-67 | Offline instant and abort deadline are both absent or exactly 120 seconds apart. |
| `RoomGuarantees.DeadlineStays` | apps/game-server/src/persistence/room-lease.ts:82-98 | While nobody reconnects, no number of offline marks and takeovers moves the deadline. |
| `RoomGuarantees.RemarkRestoresDeadline` | apps/game-server/src/persistence/presence-repository.ts:12-67 | Marking offline at the instant `markConnected` returned restores the old deadline. |
| `LockOrder.ScriptsAreSafe` | apps/api/src/internal/internal-settlement.service.ts:60-62 | In every transaction the user, advisory, account, issuance and session locks ascend; every row that a statement locks implicitly comes after the session or account row that guards it; a lock without its guard is the last. |
| `LockOrder.ScriptsAreComplete` | apps/api/src/game-sessions/game-sessions.service.ts:296-332 | Every transaction locks the accounts of all its users, its session row, every row it touches and, on an existing session, the advisory lock first. |
| `LockOrder.GuardedRowsNeverChain` | apps/api/src/game-sessions/game-sessions.service.ts:247-269 | Whoever needs a row and holds its guard waits at most for a transaction that needs no further lock. |
| `LockOrder.NoDeadlock` | apps/api/src/game-sessions/game-sessions.service.ts:296-332 | No run of any number of transactions, over explicit and implicit row locks, contains a cycle of waiting transactions. |
| `LockOrder.SomebodyCanMove` | apps/api/src/internal/internal-session.service.ts:153-154 | With anything in flight, some transaction can take its next lock, explicit or implicit, or finish. |
| `LockOrder.OneAtATime` | apps/api/src/internal/internal-settlement.service.ts:60-62 | In every run two transactions on one session, or on one user's account, are never both past their locks. |
| `CoinBank.FreeKeeps` | apps/api/src/game-sessions/game-sessions.service.ts:1067-1111 | Releasing a reserved row keeps the books and every user's total; it fails if and only if the available column would overflow. |
| `CoinBank.TakeKeeps` | apps/api/src/internal/internal-settlement.service.ts:250-283 | Capturing a reserved row always succeeds and takes exactly its amount from its user. |
| `CoinBank.HoldKeeps` | apps/api/src/game-sessions/game-sessions.service.ts:818-864 | Reserving moves coins within one account and keeps the books. |
| `CoinBank.GrantKeeps` | apps/api/src/economy/economy.service.ts:304-349 | A grant issues exactly its amount to one user. |
| `CoinBank.FreeAllKeeps` | apps/api/src/game-sessions/game-sessions.service.ts:354-358 | The release loop closes exactly its rows and changes nobody's total; only overflow can stop it. |
| `CoinBank.TakeAllKeeps` | apps/api/src/internal/internal-settlement.service.ts:107-109 | The capture loop always succeeds and leaves exactly the sum of its stakes to be paid. |
| `CoinApi.CoinStore.ApplyGrant` | apps/api/src/economy/economy.service.ts:304-349 | Account row, rescue stamp and two ledger rows are one grant. |
| `CoinApi.CoinStore.ProvisionAccount` | apps/api/src/economy/economy.service.ts:100-118 | The account is opened and the initial grant made once; otherwise nothing moves. |
| `CoinApi.CoinStore.RescueUser` | apps/api/src/economy/economy.service.ts:120-199 | Replay, no-op and grant paths are the rescue step. |
| `CoinApi.CoinStore.ReleaseReservation` | apps/api/src/internal/internal-settlement.service.ts:308-347 | Balance columns, ledger rows and reservation row are one release; the failures are those of the source. |
| `CoinApi.CoinStore.CaptureReservation` | apps/api/src/internal/internal-settlement.service.ts:250-283 | The same for a capture. |
| `CoinApi.CoinStore.CreditWinner` | apps/api/src/internal/internal-settlement.service.ts:285-306 | The payout entry, and nothing at all for a zero prize. |
| `CoinApi.CoinStore.WriteHistory` | apps/api/src/internal/internal-settlement.service.ts:349-386 | The loop writes the score row of every participant and, for a completed session, the leaderboard totals. |
| `CoinApi.CoinStore.CreateSessionFor` | apps/api/src/game-sessions/game-sessions.service.ts:118-190 | Replay, refusal and creation with rollback are the create step. |
| `CoinApi.CoinStore.JoinSessionFor` | apps/api/src/game-sessions/game-sessions.service.ts:623-679 | Replay, refusals and admission with rollback are the join step. |
| `CoinApi.CoinStore.ReissueAdmission` | apps/api/src/game-sessions/game-sessions.service.ts:914-966 | The unconsumed ticket is rotated, or a new one issued. |
| `CoinApi.CoinStore.ReconnectSession` | apps/api/src/game-sessions/game-sessions.service.ts:565-621 | The reconnect step, recorded as a no-op. |
| `CoinApi.CoinStore.LeaveSession` | apps/api/src/game-sessions/game-sessions.service.ts:203-274 | The leave step with its order of checks and rollback. |
| `CoinApi.CoinStore.CancelSessionFor` | apps/api/src/game-sessions/game-sessions.service.ts:287-396 | The cancel step, with the release loop and rollback. |
| `CoinApi.CoinStore.FinalizeRoomCommand` | apps/api/src/game-sessions/game-sessions.service.ts:398-426 | The actor is read off the tickets; then leave or cancel under the room's key. |
| `CoinApi.CoinStore.CancelExpiredWaitingSession` | apps/api/src/game-sessions/game-sessions.service.ts:436-505 | The waiting-session cancellation, once. |
| `CoinApi.CoinStore.ReleaseExpiredAdmission` | apps/api/src/game-sessions/game-sessions.service.ts:507-563 | The expired-admission step. |
| `CoinApi.CoinStore.ConsumeTicketFor` | apps/api/src/internal/internal-session.service.ts:145-233 | The ticket step: binding, lifecycle, reservation, replay, expiry, seat. |
| `CoinApi.CoinStore.MarkSessionStarted` | apps/api/src/internal/internal-session.service.ts:235-287 | The start step: at least two seated players, all of whom have consumed a ticket. |
| `CoinApi.CoinStore.SettleSessionAt` | apps/api/src/internal/internal-settlement.service.ts:52-131 | The settle step: checks, capture loop, payout, history, lifecycle, with rollback; `EndingAnswers.SettleSucceedsIff` says when that step succeeds and all that it changes. |
| `CoinApi.CoinStore.AbortSessionFor` | apps/api/src/internal/internal-settlement.service.ts:133-175 | The abort step: checks, release loop, history, lifecycle, with rollback. |
| `CoinApi.CoinStore.MarkRecoveryRequired` | apps/api/src/internal/reconciliation.service.ts:283-307 | The recovery mark and the cases in which it is not made. |
| `CoinApi.CoinStore.MarkProofRecoveryRequired` | apps/api/src/internal/reconciliation.service.ts:309-335 | The recovery mark for a proof that cannot be settled. |
| `Reconciler.FinalizeRoomCommands` | apps/api/src/internal/reconciliation.service.ts:97-133 | The loop is a run of finalize steps and counts the ones that succeed. |
| `Reconciler.AbortOfflineSessions` | apps/api/src/internal/reconciliation.service.ts:135-166 | The loop is a run of abort steps and counts the ones that succeed. |
| `Reconciler.CommitTerminalSettlements` | apps/api/src/internal/reconciliation.service.ts:213-253 | The loop is a run of settle steps in order, each followed by a recovery mark exactly when its reply says the proof can never work; the two counts are the settlements that succeeded and the marks that were made. |
| `Soundness.StepAdvances` | apps/api/src/database/migrations/0006-terminal-settlement-invariants.sql:67-236 | Every transaction keeps balance, backing, seating, tickets, records and rescue spacing, and takes nothing durable back. |
| `SessionGuarantees.CoinConservation` | apps/api/src/internal/internal-settlement.service.ts:250-347 | Every operation's entries sum to zero, both columns of every account equal their ledger sums and are not negative, and coins in accounts equal coins issued. |
| `SessionGuarantees.ReservedBacking` | apps/api/src/internal/internal-settlement.service.ts:256-268 | A user's reserved column is the sum of that user's reservations still reserved. |
| `SessionGuarantees.NeverUnbacked` | apps/api/src/game-sessions/game-sessions.service.ts:1073-1086 | "Cannot be captured" and "cannot be released" never happen. |
| `SessionGuarantees.EndingsAreFinal` | apps/api/src/internal/internal-settlement.service.ts:52-175 | A cancelled or settled session never changes again. |
| `SessionGuarantees.ReservationsCloseOnce` | apps/api/src/internal/internal-settlement.service.ts:250-347 | A closed reservation, and the operation that closed it, stand for ever. |
| `SessionGuarantees.NothingStranded` | apps/api/src/game-sessions/game-sessions.service.ts:287-396 | An ended session has nothing reserved; in a live one reserved and seated are the same thing. |
| `SessionGuarantees.OneSettlement` | apps/api/src/internal/internal-settlement.service.ts:418-423 | A session has a settlement if and only if it is settled, and never two. |
| `SessionGuarantees.SettlementIsExecuted` | apps/api/src/database/migrations/0006-terminal-settlement-invariants.sql:67-236 | A settlement's committed operation closed every seat's stake and scored every seat; deltas sum to zero; one win if completed, none if aborted. |
| `SessionGuarantees.HistoryIsZeroSum` | apps/api/src/internal/internal-settlement.service.ts:349-386 | Each session's history sums to zero, with one row a user, written only once it has ended. |
| `SessionGuarantees.ParticipantsFrozen` | apps/api/src/internal/internal-session.service.ts:235-312 | From the start on, a session's seats and reservations are fixed. |
| `SessionGuarantees.StartedLineUp` | apps/api/src/internal/internal-session.service.ts:256-283 | A started session has its creator on seat 0 and another user, all users, players and seats distinct and within capacity. |
| `SessionGuarantees.StartNeedsEveryone` | apps/api/src/internal/internal-session.service.ts:251-286 | A session starts only when open, with two or more seated players, every one of whom has consumed a ticket; no seat and no coin moves. |
| `SessionGuarantees.SettleExactly` | apps/api/src/internal/internal-settlement.service.ts:92-119 | A settlement that commits rests on the room's own proof of that version and checksum, and pays participants times entry to the proven winner; each participant's coins change by exactly the delta of that participant's new history row, and nobody else's change. |
| `EndingAnswers.SettleSucceedsIff` | apps/api/src/internal/internal-settlement.service.ts:52-131 | In every reachable state a settlement under a new key succeeds if and only if the session is this room's and under way, the room proved that version and checksum at or past the session's version, a seat carries the winning player, and the winner's balance and total won can take seats times entry. It then closes every stake, pays, scores every seat, raises only the winner's total, adds the settlement, and changes nothing else; a refusal changes nothing. |
| `EndingAnswers.SettleRefusedBecause` | apps/api/src/internal/internal-settlement.service.ts:62-105 | Which error a refused settlement carries: missing, already settled, another room, not under way, proof or winner missing, prize does not fit, in that order. |
| `EndingAnswers.AbortExactly` | apps/api/src/internal/internal-settlement.service.ts:133-175 | An abort under a new key succeeds if and only if the session is under way and every player can take the entry back; it releases every stake, adds one zero row for each seat and the settlement, and changes nothing else. |
| `EndingAnswers.CancelExactly` | apps/api/src/game-sessions/game-sessions.service.ts:287-396 | A cancellation under a new key succeeds if and only if the creator asks, the session is open, the room is not live (or the room asks for seat 0), and every player can take the entry back; then exactly its stakes, seats, unused tickets, history rows and lifecycle change. |
| `EndingAnswers.WaitingExpiryExactly` | apps/api/src/game-sessions/game-sessions.service.ts:436-505 | An open session that waited since before the limit is cancelled in that way; every other one is left alone. |
| `EndingAnswers.LeaveExactly` | apps/api/src/game-sessions/game-sessions.service.ts:203-274 | Leaving under a new key succeeds if and only if a seated user other than the creator of an open session asks, the room is not live (or the room asks for that very seat), and the entry can be taken back; then exactly that stake, seat and unused ticket change. |
| `EndingAnswers.FinalizeExactly` | apps/api/src/game-sessions/game-sessions.service.ts:398-426 | A finalization is the leave or cancel of the user whose ticket carries the binding, and is refused if no ticket does. |
| `Replays.AnsweredTheSame` | apps/api/src/game-sessions/game-sessions.service.ts:203-274 | A leave, cancel, settlement, abort, start or rescue that succeeded gets the very same answer when sent again after any further calls, and changes nothing. |
| `Replays.UsedKeyRefuses` | apps/api/src/game-sessions/game-sessions.service.ts:203-274 | A key used for something else refuses the call and changes nothing. |
| `SessionGuarantees.ReleasesReturnEverything` | apps/api/src/game-sessions/game-sessions.service.ts:203-563 | Leaving, cancelling, finalizing and aborting change nobody's total. |
| `SessionGuarantees.FinalizedOnce` | apps/api/src/game-sessions/game-sessions.service.ts:398-426 | Once a finalization has succeeded under a key, every later call with that content gets the same operation id and changes nothing. |
| `SessionGuarantees.FinalizedLeaveReleases` | apps/api/src/game-sessions/game-sessions.service.ts:231-272 | The call that does the work releases the bound reservation alone and gives up its seat. |
| `SessionGuarantees.FinalizedCancelReleases` | apps/api/src/game-sessions/game-sessions.service.ts:349-394 | The finalized cancellation that does the work releases everything still reserved in the session and nothing else, empties its seats and closes it. |
| `SessionGuarantees.ReleasedExactlyOnce` | apps/api/src/game-sessions/game-sessions.service.ts:398-426 | For leave and cancel alike: the call that does the work closes exactly the reservations it is for; after any further calls each still carries that one closing operation, and every repetition gets the same operation id and changes nothing. |
| `SessionGuarantees.CreatorIsAHolder` | apps/api/src/internal/internal-settlement.service.ts:203-215 | A live session's creator is among the reservation holders whose accounts a cancel, settle or abort locks. |
| `SessionGuarantees.OnlyTheRoomProves` | apps/api/src/internal/internal-settlement.service.ts:73-81 | No transaction of the API writes a terminal proof, and one that is there stays. |
| `AdmissionAnswers.MarkRecoveryExactly` | apps/api/src/internal/reconciliation.service.ts:283-307 | A session is marked if and only if it is active, began before the limit, has no proof and its room shows no sign of life; nothing but its lifecycle changes. |
| `AdmissionAnswers.MarkProofRecoveryExactly` | apps/api/src/internal/reconciliation.service.ts:309-335 | The same for a session whose proof cannot be settled. |
| `SessionGuarantees.TicketsAreUnique` | apps/api/src/game-sessions/game-sessions.service.ts:883-966 | No two tickets share a value; a reservation has at most one unconsumed ticket. |
| `SessionGuarantees.ReissueRetires` | apps/api/src/game-sessions/game-sessions.service.ts:934-965 | Issuing again retires the value of the unconsumed ticket, and only that row changes. |
| `SessionGuarantees.RetiredForever` | apps/api/src/internal/internal-session.service.ts:155-174 | A retired value is refused for ever and changes nothing. |
| `SessionGuarantees.ConsumerIsForever` | apps/api/src/internal/internal-session.service.ts:192-203 | A consumed ticket never changes, and only its consuming instance can present it. |
| `SessionGuarantees.ConsumingNeverSeats` | apps/api/src/internal/internal-session.service.ts:289-337 | Presenting a ticket never inserts a seat. |
| `SessionGuarantees.ExpiredAdmissionsNeverRelease` | apps/api/src/game-sessions/game-sessions.service.ts:507-563 | The expired-admission release never releases anything. |
| `AdmissionAnswers.ConsumeExactly` | apps/api/src/internal/internal-session.service.ts:145-233 | In every reachable state a ticket under a new key is honoured if and only if it names this session and room, the session takes tickets, the reservation stands, and the ticket is unexpired or was consumed by this very instance; the answer names user, admission and seat, and only the consumer and the operation are written. |
| `Replays.AdmittedTheSame` | apps/api/src/internal/internal-session.service.ts:181-203 | Presented again under its key at any time, a ticket gets the very answer it got as long as it is presentable. |
| `AdmissionAnswers.ReissueExactly` | apps/api/src/game-sessions/game-sessions.service.ts:914-966 | A ticket is issued again if and only if the reservation stands in a session that takes tickets: the unconsumed one changes value and expiry, or else one row is added. |
| `AdmissionAnswers.ReconnectExactly` | apps/api/src/game-sessions/game-sessions.service.ts:565-621 | A reconnection under a new key succeeds if and only if the user is seated in a session that takes tickets. |
| `Replays.ReadmittedTheSame` | apps/api/src/game-sessions/game-sessions.service.ts:118-190 | A creation, join or reconnection asked for again is the same admission, with a ticket exactly when one can be issued. |
| `SessionGuarantees.JoinTakesLowestSeat` | apps/api/src/game-sessions/game-sessions.service.ts:640-674 | A fresh join takes the lowest free seat, reserves exactly the entry and changes nobody's total. |
| `AdmissionAnswers.JoinExactly` | apps/api/src/game-sessions/game-sessions.service.ts:623-679 | A join under a new key succeeds if and only if the user has an account and no seat there, the session is open with a free seat, and the entry can be tied up; then exactly the hold, the lowest free seat, one ticket and the operation are written. |
| `AdmissionAnswers.CreateExactly` | apps/api/src/game-sessions/game-sessions.service.ts:118-190 | A creation under a new key succeeds if and only if the user has an account, the definition is known and the entry can be tied up; it opens the session on the definition's terms with its creator on seat 0. |
| `AdmissionAnswers.StartExactly` | apps/api/src/internal/internal-session.service.ts:235-287 | A start under a new key succeeds if and only if the session is open, the room is its own, the version is positive, there are two seats or more and each has a consumed ticket; it changes only the lifecycle, the version and the instant. |
| `SessionGuarantees.RescueTopsUp` | apps/api/src/economy/economy.service.ts:144-197 | A granted rescue brings available plus reserved exactly to the rescue balance and touches nobody else. |
| `AdmissionAnswers.RescueExactly` | apps/api/src/economy/economy.service.ts:120-199 | A rescue under a new key is granted if and only if the user's coins are below the rescue balance and the last one is a window ago; what is issued, stamped and answered, and when it is refused. |
| `AdmissionAnswers.ProvisionExactly` | apps/api/src/economy/economy.service.ts:100-118 | The first provision issues the initial grant once, every other one only reports the balance; when it is refused. |
| `SessionGuarantees.RescuesAreSpaced` | apps/api/src/economy/economy.service.ts:144-149 | Granted rescues of a user are at least a window apart, whatever the clock does. |
| `SessionGuarantees.IssuanceBound` | apps/api/src/economy/economy.service.ts:100-199 | Coins issued to a user over an interval of length L are at most the initial grant plus (L / window + 1) rescue balances. |
| `Authorities.SidesAreRuns` | apps/api/src/internal/reconciliation.service.ts:97-133 | Each side of a joint run of room and API is a run of its own, so every guarantee of either side holds in it. |
| `Authorities.PaidWinnerIsTheVerdict` | apps/api/src/internal/internal-settlement.service.ts:73-119 | In every joint run a settlement pays the player whom the rules declare the winner in the state that the room's own log reaches at the settled version, and the checksum is that state's. |
| `Authorities.FinalizationsComeFromTheLog` | apps/game-server/src/persistence/command-repository.ts:273-294 | In every joint run each finalization the API carries out is a leave or cancel committed in the room's log. |
| `Authorities.LoggedEndingsHappenOnce` | apps/api/src/game-sessions/game-sessions.service.ts:398-426 | In every joint run a leave or cancel in the room's log is carried out exactly once: the first time closes exactly the reservations it is for under that entry's key; after any further steps of either side the entry and those closings stand, and every repetition gets the same operation id and changes nothing. |
| `Authorities.OnlyTheRoomReleases` | apps/api/src/game-sessions/game-sessions.service.ts:220-222 | In every joint run, while a session is open and its room is live, a step takes a stake out of reserved only if it carries out a leave or cancel of the room's log or the waiting limit has passed. |
| `Authorities.StakesWaitForTheRoom` | apps/api/src/game-sessions/game-sessions.service.ts:220-222 | Over any further steps of either side such a stake stays reserved in its open session until the room's word, the waiting limit or the start. |

## Left out

- The board rules (movement, rent, trades, bankruptcy) and snapshot contents: an abstract transition, serializer and verdict stand for them.
- SQL text, isolation levels and CHECK constraints on timestamps: tables are maps and each transaction is one step; locks appear only in `LockOrder`, where the shared key locks of foreign keys are left out: whoever inserts a child of a session or reservation already holds the session row, and the API never locks rows of the realtime tables.
- Liveness of retries, intervals and queues: the theorems are about safety.
- Colyseus callbacks, metrics, logging, authentication, controllers, list and detail views, and the web client.
- Hash functions, HMAC, base64url, UUIDs and JWTs: a digest is represented by what it digests.
- `join_intents`, the `active` flag of a seat, `games_played`, `games_won`, account versions and settlement timestamps: nothing modelled reads them.
- The reconciler's candidate queries, its running flag and its advisory lock: its loops take any candidates, and any interleaving of its steps is a run.
- The clamp on a handler's command timestamps: a handler may use any time.
- More than one room: every room table is keyed by the room, so one room is modelled.
- The `bootstrap` read of the API, except for its locks: it changes nothing.
- `CheckpointRepository.save` in runs of the room: no room calls it; `SaveAdvances` covers it by itself.
- RoomGuarantees.ReplayGoesByContent: assumes that the collation tells the keys of the tree apart; for the trees that commands are, `RoomGuarantees.CommandReplayGoesByContent` asks this only of the schemas' fixed keys.
- Authorities.PaidWinnerIsTheVerdict: speaks of one room and its session; proofs and outbox rows of other rooms are arbitrary.
- SessionGuarantees.SettleExactly: speaks of a settlement that commits; `EndingAnswers.SettleSucceedsIff` says when it does, and `Replays.AnsweredTheSame` what a repeated one gets.
- EndingAnswers, AdmissionAnswers and Replays say that a refused call is refused and changes nothing; which error code it gets is stated only where a caller acts on it (expired and replayed tickets, refused settlements).

# monitord, modelled and proved

monitord runs monitors: worker processes that watch chains and feeds, keep a JSON state and named checkpoints, and emit
events. A daemon launches workers, stores what they commit in SQLite and delivers their events. This project models the
parts on which its promise rests, that every commit takes effect exactly once and nothing is lost or delivered out of
turn, and proves that they keep it.

`dafny verify dfyconfig.toml` checks everything.

## The parts

- **The store.** `Schema.dfy` is one value per table set; `Transactions.dfy`, `Lifecycle.dfy`, `Health.dfy`,
  `Outbox.dfy` and `Retention.dfy` say what each write transaction does to it, an error leaving it alone. `Store.dfy` is
  the class that runs them with the loops and row-by-row updates of `internal/storage`. Each of its methods is one write
  of a run that keeps the invariant below, and says what its caller gains (`Gains.dfy`).
- **The invariant.** `Integrity.dfy` and `OutboxIntegrity.dfy` state and keep it per operation, `Writes.dfy` over the
  alphabet of all write transactions, `History.dfy` over runs of them, with what follows for replay and fencing.
- **The commit protocol.** `Protocol.dfy` is the world around the store: workers with their coordinators and sessions,
  the two pipes, the daemon's frame loop, launches from earlier snapshots, restarts and every operator write, as seventeen
  kinds of step in any order. `ProtocolSafety.dfy` and `WorldSafety.dfy` keep its invariant; `ProtocolTheorems.dfy`,
  `Fanout.dfy`, `Origins.dfy` and `Freshness.dfy` draw the conclusions. `Worker.dfy` holds the worker's own objects
  (stream, coordinator, session, transaction) and `Daemon.dfy` the daemon's, as classes whose every turn is one of
  those steps.
- **Sweeps, health, leases.** `Sweeps.dfy`, `SweepEnds.dfy`, `HealthHistory.dfy`, `Notices.dfy` and `Leases.dfy` are about
  runs of the same writes; `StaleSweeper.dfy` and `StaleHello.dfy` each build one run, from an empty store, in which
  something goes wrong.
- **Followers.** `Blocks.dfy` (a reorganising chain with a bounded undo journal), `Events.dfy` and `AddressEvents.dfy`
  (a live lane beside an authoritative replay) are classes over an endpoint that may answer anything, call by call;
  what they keep through crashes is stated on a ghost story of committed deliveries, and why a call failed on the
  questions it asked. Against an endpoint that answers, each of them is shown to catch up.
- **Digests.** `Hashing.dfy` shows that the byte streams behind the two digests are uniquely decodable; `Sorting.dfy`
  is the order they and the replay rely on.

## Where the code and expectations part

- A checkpoint clear between the launch read and the activation goes unnoticed when the snapshot saw no active
  generation: pausing and resuming leaves every compared column equal. `Freshness.ActivationFreshness` gives the exact
  condition and `StaleHello.GreetsWithCleared` a run.
- A sweeper that sleeps through the end of its sweep can own an equal cursor of a later one, and pass rows it never saw.
  `Sweeps.VisitedUnlessUnlisted` says exactly which rows are missed, `Sweeps.PromptSweepVisitsEveryRow` that none is when
  pages are used within half an hour, and `StaleSweeper.StaleSweeperSkipsRow` that an hour, as long as a finished sweep
  rests, is not enough: the slice that closed the earlier sweep may itself have been late.
- A log or signature that arrives live after the replay cursor has passed it is still journaled.
  `AddressEvents.Source.Follow` says exactly when that means a second update, and `AddressEvents.LateNotification` is a
  run; for `evm.Events` it leaves a live delivery that no confirmation will close, which the alternation lemmas allow and
  `EvmEvents.Source.CatchUp` leaves in the journal.
- `MarkGenerationStopped` retires a row without resetting `active_generation`, and archiving relies on inactive
  deployments having none. The invariant is therefore that an active row is `active_generation`, not the converse.

## Model

| member | source | states |
|---|---|---|
| ProtocolTheorems.SessionMirrorsStore | session.go:215-272 | In every reachable world, between commits and while none was given up, the state, revision and checkpoints an unfenced session holds are the durable ones (its hello being fresh; `ActivationFreshness` says exactly when it is). |
| ProtocolTheorems.CommitSucceeds | coordinator.go:88-95 | When a commit returns without an error and its generation is unfenced, what is stored is the state it proposed, with its revision and checkpoints, whatever earlier commits of the worker were given up. |
| ProtocolTheorems.SuccessIsDurable | coordinator.go:33-125 | The same for any worker and tables that satisfy the world invariant. |
| ProtocolTheorems.GivingUp | coordinator.go:65-71 | The first commit a worker gives up leaves at most one frame undecided. |
| ProtocolTheorems.UncertainIsBaseOrNext | coordinator.go:65-75 | With one frame undecided and the generation unfenced, the tables hold exactly the base the session still shows or exactly what the frame proposed. |
| ProtocolTheorems.NeverConflicts | internal/storage/transactions.go:105-144 | For a frame of an honest, unfenced worker the ledger holds its receipt, or neither fence, sequence nor revision refuses it. |
| ProtocolTheorems.HonestWorkerIsAcknowledged | internal/storage/transactions.go:105-218 | In every reachable world the store acknowledges such a frame, whatever its sequence number, unless the worker proposed something empty (token, state, source, value, event identifier or title), repeated an event identifier within the frame, or reused one for other content. |
| ProtocolTheorems.ProposedWell | internal/storage/transactions.go:328-376 | A frame of an honest, unfenced worker whose proposal has something in every field and no event identifier twice passes validation: its identity, sequence, hash, outbox identifiers and deliveries always do. |
| ProtocolTheorems.CommitsTakeEffectOnce | internal/storage/transactions.go:69-234 | Over every run of sends, resends, lost or duplicate ACKs, failed writes, restarts and operator writes, no (deployment, generation, sequence) takes effect twice. |
| ProtocolTheorems.PlayIsRun | internal/daemon/worker.go:169-238 | Every run of the world performs exactly the writes of its journal, in order, and each was allowed. |
| ProtocolTheorems.RevisionCounts | internal/storage/transactions.go:146-193 | While a generation is active, `state_revision` is its value at activation plus `last_transaction_seq`, which is the number of its frames that took effect. |
| ProtocolTheorems.EventsReachEveryBinding | internal/daemon/worker.go:267-310 | Although bindings are listed in an earlier read, each event a frame inserts has exactly one delivery per binding active at the commit, and no other. |
| ProtocolTheorems.ListedBindings | internal/daemon/worker.go:267-274 | The bindings listed before the write are all of those active when it happens, each destination once. |
| ProtocolTheorems.ControlChannelSurvives | coordinator.go:187-211 | As long as no commit was given up, no ACK that can arrive is refused and the control channel has not failed, whatever was resent or answered twice. |
| ProtocolTheorems.OneFrameASequence | wire.go:55-111 | Two frames with the same generation and sequence that are ever on their way to the store, however far apart and even after a failed write, are the same frame. |
| ProtocolTheorems.StoreHands | internal/daemon/worker.go:306-310 | Every frame a daemon hands to the store is the one its worker sent, with its checkpoints and listed bindings. |
| ProtocolTheorems.ReachableDerives | internal/daemon/worker.go:303-304 | In every reachable world an outbox identifier derived from a frame belongs to an event of that frame. |
| ProtocolSafety.CalmNeverRefuses | coordinator.go:187-211 | The filter absorbs duplicates of the last accepted and of the awaited ACK; nothing else can be at the head of the pipe. |
| ProtocolSafety.PendingIsNext | coordinator.go:213-224 | An ACK for the frame in flight carries its sequence, the next revision and `accepted`, and every earlier frame had taken effect. |
| ProtocolSafety.LocalKeeps | coordinator.go:33-125 | Every step of a worker, its pipes and its daemon keeps what the protocol knows about it. |
| WorldSafety.PlayKeeps | internal/daemon/worker.go:169-319 | Every run of steps, in any order, keeps the invariant tying workers, pipes and launch snapshots to the tables. |
| WorldSafety.EffectIsNext | internal/storage/transactions.go:114-144 | A frame that takes effect is the next one of its generation and was based on the durable revision. |
| WorldSafety.ReplayAnswers | internal/storage/transactions.go:258-278 | The receipt a resent frame is answered with is the ACK its worker expects. |
| WorldSafety.ActivationIsFresh | internal/storage/generations.go:71-89 | A snapshot that an activation accepts has the durable state and revision at that instant, and its checkpoints unless they were cleared. |
| History.RunKeeps | internal/storage/schema.sql:1-137 | Every run of every mix of write transactions keeps the invariant of the tables. |
| History.AtMostOnce | internal/storage/transactions.go:105-193 | In every run of writes no transaction key takes effect twice, and none that already did. |
| History.ReplayNow | internal/storage/transactions.go:105-116 | An applied frame is answered from its receipt, refused as a conflict when its hash differs, or fenced once its receipt is gone; nothing is written. |
| History.ReplayForever | internal/storage/transactions.go:258-278 | The same at any later point of any run of deploys, pauses, edits, restarts and sweeps. |
| History.OneCurrent | internal/storage/generations.go:91-131 | A deployment has at most one active generation row, and it is `active_generation` of an active deployment. |
| History.NeverCurrentAgain | internal/storage/generations.go:30-47 | In every run a retired generation never becomes active again, although `active_generation` is reset to 0. |
| History.NumbersIncrease | internal/storage/generations.go:106-131 | A new generation is numbered above every generation its deployment ever had, and is active. |
| History.NothingDangles | internal/storage/schema.sql:102-137 | In every run each monitor event has its ledger row and each delivery its event and binding, and a delivery is `sending` exactly when it carries a lease owner and a lease deadline. |
| History.LedgerIsConsecutive | internal/storage/transactions.go:146-193 | In every run the ledger of an active generation holds exactly the sequences 1 to `last_transaction_seq`, with consecutive result revisions ending at the deployment's. |
| Writes.PerformKeeps | internal/storage/schema.sql:1-137 | Each of the write transactions keeps the invariant of the tables. |
| Writes.ExternalSettles | internal/storage/deployments.go:47-350 | A write that is neither a frame nor an activation leaves whatever is still unfenced afterwards undisturbed: state, revision, checkpoints, bindings, receipts. |
| Integrity.ActivateOpens | internal/storage/generations.go:51-144 | A successful activation found the snapshot's artifact, configuration, revision and generation current, fenced the deployment and opened the next number. |
| Integrity.DeployIsFence | internal/storage/deployments.go:47-127 | A deploy that goes through fences exactly the deployment it creates or replaces: its generations are retired, its `active_generation` is 0, and no row of another deployment moves. |
| Gains.StoppedMeans | internal/storage/health.go:315-337 | Stopping a generation retires its row and no other, leaves `active_generation` and every other table but health, and fences every frame of it. |
| Gains.ArchiveMeans | internal/storage/deployments.go:260-280 | Archiving does not reset `active_generation`, and need not: an archived deployment has none, no frame of it can be applied and no generation of it opened. |
| Gains.RecoverMeans | internal/storage/generations.go:30-47 | After recovery no generation is active and every frame of every deployment is fenced, while states, revisions, checkpoints, receipts and the outbox are untouched. |
| OutboxIntegrity.NotifyKeeps | internal/storage/health.go:278-313 | A health notice and its latch together keep the invariant of the tables. |
| Fanout.FrameRecords | internal/storage/transactions.go:280-326 | Every row a frame adds to the outbox is one of its events, delivered to exactly the destinations listed with it. |
| Fanout.FrameOccurs | internal/storage/transactions.go:280-326 | No event of an applied frame is lost: each is in the outbox with its content, as a new row or as the identical earlier occurrence. |
| Fanout.EventsInsert | internal/storage/transactions.go:280-326 | Unless an identifier is reused, all events of a frame go in. |
| Fanout.EventsConflict | internal/storage/transactions.go:300-324 | If they do not, an identifier was reused for other content; no other error is possible. |
| Origins.UnappliedIsUnused | internal/daemon/worker.go:303-304 | The outbox identifiers of a frame that has not taken effect are unused. |
| Freshness.ActivationFreshness | internal/storage/generations.go:71-130 | A snapshot read at one instant and activated after any run of writes has the durable state and revision of the second instant; its checkpoints are the durable ones if and only if it had none or no operator cleared them in between, and always when it saw an active generation. |
| StaleHello.GreetsWithCleared | internal/storage/generations.go:84-89 | From an empty store: deploy, first worker, one frame with a checkpoint, restart of the daemon, read; then pause, clear, resume; the activation succeeds and greets the worker with a checkpoint that is no longer stored. |
| Sweeps.OutboxSliceDeletes | internal/storage/retention.go:202-222 | However stale its page, an outbox slice deletes exactly the targeted events that at the moment of the write are older than their deployment keeps events and have no delivery that is pending or being sent; every such delivery and its event stay. |
| Sweeps.LedgerSliceDeletes | internal/storage/retention.go:202-222 | A ledger slice deletes exactly the targeted receipts of generations retired more than seven days ago with no event of their frame left. |
| Sweeps.PruneColumns | internal/storage/retention.go:174-250 | Prune on columns: idle while a finished sweep rests, lost unless it owns the cursor; otherwise exactly the rechecked rows that may go are gone. In no case is a delivery that is pending or being sent lost, nor its event. |
| Sweeps.OthersLeaveCursor | internal/storage/retention.go:187-199 | No write but a slice of a sweep moves that sweep's cursor, outbox or ledger. |
| Sweeps.PassedIffListed | internal/storage/retention.go:54-159 | Of the rows a slice passes it takes exactly those on its page. |
| Sweeps.VisitedUnlessUnlisted | internal/storage/retention.go:174-250 | In every run of sweepers that compete, sleep, break off and crash among all other writes: when a sweep closes, its visits were in increasing rowid order, and a row present from its start to its end was visited if and only if no slice passed it with a page that did not list it. |
| Sweeps.PromptSweepVisitsEveryRow | internal/storage/retention.go:174-250 | If in such a run every slice is written less than half an hour after its page was read, by a clock that does not go back, every row present throughout is visited once. |
| StaleSweeper.StaleSweeperSkipsRow | internal/storage/retention.go:187-199 | An hour would not do: a run from an empty store, every slice written within an hour of its page, in which a sweep closes without having visited a row present from its start to its end. |
| SweepEnds.SweepsTerminate | internal/storage/retention.go:54-159 | In every run, live commits included, an unfinished sweep has moved its cursor no more often than its potential: the rows ahead, the open generation, and the receipts of generations that were already retired when a page was read. |
| SweepEnds.OutboxSweepTerminates | internal/storage/retention.go:54-159 | In every run an unfinished outbox sweep has moved its cursor no more often than there were row numbers ahead of it, whatever the ledger holds. |
| HealthHistory.EveryWriteFollows | internal/storage/health.go:91-313 | Every write moves a deployment's counter, status and latch exactly as the failure, success or notice it records says. |
| HealthHistory.NoticesAlternate | internal/storage/health.go:278-313 | In every run of runs, deferrals, failures, stabilisations, redeploys and restarts the notices alternate, and the latch is set exactly when the last one was unhealthy. |
| Notices.NoticesAreRows | internal/storage/health.go:278-313 | The health events a write inserts for a deployment are exactly the notice it records, if it records one; no other write inserts one. |
| HealthHistory.CounterCounts | internal/storage/health.go:91-176 | The counter is the number of failures since the last success or stabilisation. |
| HealthHistory.HealthyMeansClear | internal/storage/health.go:180-215 | `healthy` implies zero consecutive failures and a clear latch. |
| HealthHistory.BornQuiet | internal/storage/health.go:339-342 | A first deploy starts with the counter at zero and the latch clear, so the first notice is unhealthy. |
| Leases.ClaimReturnsItsRows | internal/storage/outbox.go:62-111 | The joining query returns every row the claim leased and no other, because a claim's owner is never reused. |
| Leases.KeptUntilDeadline | internal/storage/outbox.go:53-68 | In every run of claimers, completions and all other writes, a leased row that its holder does not complete is exactly as it was, as long as it is there and every claim is made before its deadline. |
| Leases.CompletionEnds | internal/storage/outbox.go:160-171 | A completion takes effect exactly for the lease currently held, and ends it; otherwise nothing changes. |
| Leases.LeasesEndOnce | internal/storage/outbox.go:122-171 | In every run of concurrent claimers each lease is completed at most once. |
| Leases.DeliveredForever | internal/storage/outbox.go:53-182 | `delivered` is absorbing: no claim, completion or retry in any run changes the row. |
| Leases.LostStaysLost | internal/storage/outbox.go:62-68 | A lease that is over is never held again. |
| Leases.AttemptsReadAreCurrent | internal/storage/outbox.go:141-158 | The attempt count read on another connection is still the row's count when the guarded write succeeds, whatever ran in between. |
| Leases.OthersLeaveRows | internal/storage/outbox.go:53-182 | No write but a claim, a completion or a retry changes a delivery row. |
| Stores.ValidateFrame | internal/storage/transactions.go:328-376 | The validating loops refuse exactly the frames in which a field is empty, a number zero, a token shorter than 16 bytes, a title blank, or a source, event, outbox identifier or destination repeated. |
| Transactions.InvalidMeansMalformed | internal/storage/transactions.go:69-75 | A frame is answered as invalid input exactly for what is wrong with its own fields, and for nothing the tables hold. |
| Stores.WriteCheckpoints | internal/storage/transactions.go:196-212 | The upsert loop writes every mutation of the frame over what was there. |
| Stores.InsertDeliveries | internal/storage/transactions.go:315-324 | The insert loop writes one pending row per destination, or fails as soon as a binding is missing or a row exists. |
| Stores.InsertOutboxEvent | internal/storage/transactions.go:280-326 | One event and its deliveries go in; an identical earlier occurrence absorbs it and a different one is a conflict. |
| Stores.InsertOutboxEvents | internal/storage/transactions.go:214-218 | The events go in one after the other, the first error ending the transaction. |
| Stores.FailsEarly | internal/storage/transactions.go:214-218 | An error on a prefix of the events is the error of the whole. |
| Stores.Store.LookupTransaction | internal/storage/transactions.go:258-278 | An answer is the ACK of the frame that took effect under this key, or a conflict when that was another payload; a miss means none did, or its generation is fenced. |
| Stores.Store.CheckFence | internal/storage/transactions.go:114-144 | Passes exactly the next frame of the current generation, from its worker and on the durable revision, and only one that never took effect. Fenced exactly when generation or token is not the current one; otherwise the error names what is out of turn: an old sequence, a gap, or another base. |
| Stores.Store.WriteFrame | internal/storage/transactions.go:146-218 | Deployment, generation, ledger, checkpoints and outbox move together, row by row as the transaction writes them. |
| Stores.Store.ApplyTransaction | internal/storage/transactions.go:69-256 | Invalid input exactly for a malformed frame. A success is the durable receipt of an identical frame with nothing written, or every column of one frame: state and revision, sequence, receipt and checkpoints, with no other row but the outbox moving. After a commit error the durable ledger decides the answer. The tables' invariant is kept. |
| Stores.Store.GetRuntimeDeployment | internal/storage/checkpoints.go:49-94 | One read snapshot of row and checkpoints, without any change. |
| Stores.Store.ActivateGeneration | internal/storage/generations.go:51-144 | Invalid input, not found, changed or done exactly by the compared columns; done means the next number is open with the snapshot's artifact and configuration, every earlier generation is retired, the health row starts, and nothing else moved. |
| Gains.ActivateMeans | internal/storage/generations.go:91-131 | The rows of a successful activation, one by one: although only the prior generation is retired, no other current one is left. |
| Stores.Store.RecoverGenerations | internal/storage/generations.go:30-47 | No worker of the old process can write afterwards; every current generation is retired and every active deployment has none, row by row, and no state, revision, checkpoint, receipt or queued delivery is lost. |
| Stores.Store.MarkGenerationReady | internal/storage/health.go:65-89 | Goes through exactly for a current generation that its health row follows and that was not ready; then it is, and nothing its worker may send is refused that was not before. |
| Stores.Store.MarkGenerationStopped | internal/storage/health.go:315-337 | Goes through exactly for a generation that exists; then that one is fenced and keeps the first time it was retired, and every other row but its own health row is where it was. |
| Stores.Store.DeployMonitor | internal/storage/deployments.go:47-127 | Which of the four errors, or which identifier, follows from the input, the name, the expected revision and the status; a success writes every column asked for under the next revision and the next configuration revision if that changed, retires the generations, and binds each destination under its next revision. |
| Gains.DeployMeans | internal/storage/deployments.go:88-122 | The rows of a successful deploy, column by column. |
| Stores.Store.SetDeploymentStatus | internal/storage/deployments.go:216-253 | Goes through exactly from the expected status; then no worker of the deployment can write, its current generation is retired, the next one starts from the same state, revision and checkpoints, and no other deployment changed. |
| Stores.Store.PauseDeployment | internal/storage/deployments.go:254-256 | The same, from active to inactive and without an expiry. |
| Stores.Store.ResumeDeployment | internal/storage/deployments.go:257-259 | The same, from inactive to active with the new expiry. |
| Stores.Store.DeactivateDueDeployments | internal/storage/deployments.go:156-191 | Exactly the active deployments whose expiry is not after `now` become inactive, their generations retired and their health rows stopped; their number is returned. |
| Stores.Store.ArchiveDeployment | internal/storage/deployments.go:260-280 | Goes through exactly for an inactive deployment; then no frame of it can be applied and no generation opened, and what it holds is kept. |
| Stores.Store.PurgeDeploymentSafe | internal/storage/deployments.go:281-305 | Goes through exactly for an archived deployment that is forced or has no delivery pending or being sent; then nothing of it is left in any table and everything of the others is. |
| Stores.Store.ReplaceDeploymentState | internal/storage/deployments.go:308-350 | Goes through exactly on the revision it was made for, the next revision holds the new state, and no running worker can overwrite it. |
| Stores.Store.ClearDeploymentCheckpoints | internal/storage/checkpoints.go:99-150 | Goes through exactly while the deployment is inactive; no checkpoint of it is left, as many as are reported went, and state, revision and other deployments stay. |
| Stores.Store.RecordRunOutcome | internal/storage/health.go:91-176 | Only the active generation of an active deployment is heard; the health row takes the status its counter and threshold call for, a transition is reported exactly when the latch flips, with exactly one notice to each active destination, and otherwise the outbox is untouched. |
| Stores.Store.MarkGenerationStable | internal/storage/health.go:180-215 | Only a starting active generation becomes stable: healthy with a zero counter, its recovery announced exactly when the latch was set. |
| Stores.Store.RecordOperationalFailure | internal/storage/health.go:230-276 | One more failure is counted; it is announced exactly when the threshold is reached with the latch clear. |
| Stores.EnqueueHealthNotification | internal/storage/health.go:278-313 | Fails exactly when the random identifier was used; otherwise one notice with the title of its kind goes in above all rows, with one pending delivery to each active destination and no other. |
| Stores.Store.ClaimOutbox | internal/storage/outbox.go:53-120 | Takes waiting rows whose time has come and sending rows whose lease is over, soonest first, all of them unless the limit is reached; they are leased until `now` plus the lease and returned. A row leased beyond `now` stays as it is, and so does everything else. |
| Stores.SelectionExists | internal/storage/outbox.go:68-75 | For every table and limit there is a set of rows as ORDER BY and LIMIT select it. |
| Stores.Store.FinishDelivery | internal/storage/outbox.go:122-171 | Goes through exactly for the holder of the lease, and ends it: nobody holds the row afterwards, and no other row moves. |
| Stores.Store.DeferDelivery | internal/storage/outbox.go:128-139 | The same without counting an attempt; the row is due at the given time. |
| Stores.Store.FinishFailed | internal/storage/outbox.go:141-171 | The write of a failed delivery, whatever ran since its read: exactly the holder ends the lease, one attempt is counted, and the row is dead or due at the given time by the count that was read. |
| Stores.Store.MarkDeliveryFailed | internal/storage/outbox.go:141-158 | With its read and write together: one attempt is counted, and the row is dead if its attempts have reached the limit and due at the given time if not. |
| Stores.Store.RetryDeadDelivery | internal/storage/outbox.go:172-182 | Goes through exactly for a dead row, which is then due, held by nobody and without attempts. |
| Stores.Store.DiscoverOutbox | internal/storage/retention.go:54-159 | The next rows of the sweep in order, at most 64 and none left out, each marked by whether it may go now; complete exactly when there is none. |
| Stores.Store.DiscoverLedger | internal/storage/retention.go:80-142 | The walk to the next generation retired more than seven days ago, and its next receipts in order, each marked by whether an event of its frame is left. |
| Stores.Store.PruneSlice | internal/storage/retention.go:174-250 | Own the cursor by comparison, recheck and delete within the budget, at least one candidate, and move the cursor; exactly the rechecked rows that may go are gone, and no delivery that is pending or being sent. |
| Stores.ReplaceBindings | internal/storage/deployments.go:110-122 | Every binding of the deployment is retired and each destination inserted under its next revision. |
| Workers.Wire.SendBytes | wire.go:55-102 | After any failure nothing more is written, so at most one write is left open. |
| Workers.Coordinator.ReceiveTransactionAck | coordinator.go:187-211 | Refuses exactly an ACK that neither repeats the last accepted one nor names the awaited frame down to its hash, or that contradicts the pending one; the first to name it becomes pending. |
| Workers.Coordinator.ReadControl | coordinator.go:151-178 | A refused ACK is fatal and ends the reader. |
| Workers.Coordinator.Turn | coordinator.go:85-124 | One turn of the select, for every signal it can see: which signals end the wait, that only a pending ACK that is not a refusal commits, when the stop timer is armed, and that the end leaves nothing expected. |
| Workers.Coordinator.Resend | coordinator.go:99-102 | A retry tick writes the frame in flight to the stream once more, or gives the commit up when it cannot be written. |
| Workers.Coordinator.Await | coordinator.go:85-124 | The loop over any sequence of signals: resends, ACKs, stop requests, deadlines and failures. |
| Workers.Coordinator.Commit | coordinator.go:33-125 | Number, expect, send, wait: the coordinator ends where the protocol's worker does. |
| Workers.TurnIsStep | coordinator.go:85-124 | Each turn changes nothing or is exactly one step of the protocol world that its worker is ready for. |
| Workers.WaitEnds | coordinator.go:85-124 | However many turns a wait takes: a success shows what the frame proposed, a failure leaves state, checkpoints and revision alone. |
| Workers.CommitEnds | session.go:257-271 | A successful commit leaves the session with all it proposed; any other with nothing of it. |
| Workers.CommitSends | session.go:249-257 | However the wait goes, a commit puts one frame among those sent, and it carries what the closure proposed. |
| Workers.Session.DropUnchanged | session.go:249-253 | The loop keeps exactly the checkpoints that are not in the mirror with the same value, with their new values. |
| Workers.Session.Mirror | session.go:267-270 | The loop lays the acknowledged checkpoints over the mirror. |
| Workers.Session.Commit | session.go:215-272 | Silent exactly when nothing was admitted or everything proposed is already there. Otherwise one frame is sent, unless the stream had failed, with the proposed state and events and exactly the checkpoints that are new or differ; a success leaves the proposed state and all the proposed checkpoints in the session, anything else leaves it as it was. |
| Workers.Session.Checkpoint | session.go:183-203 | Reads the mirror of a durable checkpoint. |
| Workers.Transaction.Emit | session.go:94-111 | Adds a well-formed event while the limit is not reached, so a commit never exceeds it. |
| Workers.Transaction.Checkpoint | session.go:112-125 | The last value for a source wins; an empty source is refused. |
| Daemons.ListCheckpoints | internal/daemon/worker.go:275-283 | Every checkpoint once, in the order of its source. |
| Daemons.ListEvents | internal/daemon/worker.go:284-306 | Every event under its derived identifier, addressed to every listed binding. |
| Daemons.DaemonWorker.Prepare | internal/daemon/worker.go:258-274 | Accepts exactly the frames of its own worker with the right hash and number of events, and lists the active bindings once each. |
| Daemons.DaemonWorker.BuildFrame | internal/daemon/worker.go:275-309 | The store's frame holds exactly the worker's checkpoints and, in order, its events under their derived identifiers with their content, each addressed to every listed binding. |
| Daemons.DaemonWorker.HandOver | internal/daemon/worker.go:309-313 | The store decides on the tables as they are at the write, not as they were at the read. |
| Daemons.PrepareIsTake | internal/daemon/worker.go:258-274 | Preparing the frame at the head of the pipe is the world's take step: the frame leaves the pipe, the phase holds its bindings, and nothing else of the worker changes. |
| Daemons.HandOverIsStore | internal/daemon/worker.go:309-318 | Handing it over later is the world's store step. |
| Blocks.StateIsFold | catalog/quicknode/evm/blocks.go:384-417 | If removal inverts application, the state after any committed deliveries is the fold over the net chain. |
| Blocks.AppendKeeps | catalog/quicknode/evm/blocks.go:343-365 | Applying the next block keeps deliveries a stack, the net chain consecutive and parent-linked, and the journal its newest part. |
| Blocks.RemoveKeeps | catalog/quicknode/evm/blocks.go:396-414 | Removing takes back the newest block not yet removed, and keeps the same. |
| Blocks.SavedIsValid | catalog/quicknode/evm/blocks.go:248-279 | Every checkpoint the follower ever commits passes validation on reload. |
| Blocks.Trim | catalog/quicknode/evm/blocks.go:370-382 | The loop drops exactly the entries deeper than the confirmations; at most that many remain. |
| Blocks.Follower.Load | catalog/quicknode/evm/blocks.go:214-246 | What was saved is always accepted. |
| Blocks.Follower.FetchRange | catalog/quicknode/evm/rpc.go:157-186 | A fetched range is whole, consecutive and parent-linked, or there is a failed or torn answer. |
| Blocks.Follower.TakeBack | catalog/quicknode/evm/blocks.go:393-415 | One round of rollback: the newest block is delivered as removed and the journal shortened, or nothing. |
| Blocks.Follower.RollbackOrphans | catalog/quicknode/evm/blocks.go:384-417 | Takes back only blocks the endpoint denied, ends on one it confirmed, and fails only for a disturbed call or an exhausted journal. |
| Blocks.Follower.ApplyBlock | catalog/quicknode/evm/blocks.go:343-365 | One block is applied with a journal of at most `confirmations` entries that keeps every entry, the new one included, less than `confirmations` below the target; it fails only when a call does, so the full-journal error is unreachable. |
| Blocks.Follower.Advance | catalog/quicknode/evm/blocks.go:301-368 | Against any endpoint: a rollback over denied blocks, then growth by served ones, with every block less than `confirmations` below the target still journaled; it falls short of the target only for a reason listed in `Halted` or a stuck rollback. |
| Blocks.AdvanceMends | catalog/quicknode/evm/blocks.go:301-428 | With the canonical chain fixed, the rollback removes exactly the non-canonical suffix, the net chain ends canonical, and nothing stops it short. |
| Blocks.NeverStuck | catalog/quicknode/evm/blocks.go:393-399 | With the fork inside the journal the rollback never runs out of it. |
| Blocks.ForkInReach | catalog/quicknode/evm/blocks.go:370-382 | Whatever calls came before: a fork less than `confirmations` below the highest target lies within the journal. |
| Blocks.NeverHalted | catalog/quicknode/evm/blocks.go:319-342 | On a fixed chain none of the reasons to stop before the target applies. |
| Blocks.Follower.AdvanceOnFixedChain | catalog/quicknode/evm/blocks.go:301-428 | With the fork less than `confirmations` below the highest target asked for so far, such a call succeeds, covers the target, leaves a canonical net chain, and took back exactly the orphaned blocks. |
| Blocks.Follower.Follow | catalog/quicknode/evm/blocks.go:91-168 | Any number of calls and restarts keeps the committed story consistent and the saved checkpoint valid. |
| EvmEvents.Source.HandleLive | catalog/quicknode/evm/events.go:241-279 | A first sighting is delivered and journaled, a removal takes back its own journaled delivery, anything else is ignored; it fails if and only if its handler or commit does or a new log meets a full journal, and never moves the cursor. |
| EvmEvents.Source.ReconcileRangeOrphan | catalog/quicknode/evm/events.go:351-381 | Takes back one journaled log of the range that the answer lacks and whose block, when asked for, was another; fails only for a call it made or when that block is still there. |
| EvmEvents.Source.ConfirmLogs | catalog/quicknode/evm/events.go:318-338 | The loop confirms exactly the logs the cursor has not passed, in order, closes their live deliveries, and fails if and only if a handler or commit does. |
| EvmEvents.Source.ReplayRange | catalog/quicknode/evm/events.go:309-348 | A range answered in any order is confirmed in the chain's order and the cursor moves past its end. |
| EvmEvents.Source.ReconcileOne | catalog/quicknode/evm/events.go:281-349 | Progress in every round: the cursor moves or a stale live delivery is taken back; it breaks only when a question it asked was refused, the block it stands on changed, or the answer for its range lacked a journaled log whose block is still there, and keeps the confirmed prefix. |
| EvmEvents.Source.CatchUp | catalog/quicknode/evm/events.go:281-381 | Once its questions are answered and the head stands still, rounds come to an end: every matching log up to the confirmed height is confirmed, and no journaled log up to there is left but those that came after their confirmation. |
| EvmEvents.Source.Follow | catalog/quicknode/evm/events.go:81-171 | Over any live messages, mid-range failures and restarts, on a chain that may grow, the confirmed deliveries stay a prefix of the confirmed chain. |
| EvmEvents.ConfirmedBelowCursor | catalog/quicknode/evm/events.go:443-448 | Every matching log below the cursor has been confirmed, once and in order. |
| EvmEvents.StartsOnTrack | catalog/quicknode/evm/events.go:196-224 | A new source is on track for the logs from its first block on. |
| EvmEvents.SortedRange | catalog/quicknode/evm/events.go:309-317 | Sorting by block, transaction and log index restores the chain's order from any answer. |
| EvmEvents.RemovedFollowsLive | catalog/quicknode/evm/events.go:243-259 | Every removal follows a live delivery of that log with nothing ending it in between. |
| EvmEvents.LiveOnceUntilEnded | catalog/quicknode/evm/events.go:261-278 | Between two live deliveries of one log there is a removal or a confirmation. |
| EvmEvents.LiveLogIndex | catalog/quicknode/evm/events.go:434-441 | The index of the log with that identifier, or none exists. |
| AddressEvents.Source.HandleLive | catalog/quicknode/solana/events.go:231-285 | A notification is ignored when known, kept as a hint when it does not match or the journal is full, and otherwise delivered and journaled with its update; it fails if and only if a call it made does or the signature is missing. |
| AddressEvents.Source.ReplayRecord | catalog/quicknode/solana/events.go:394-452 | One record: its update unless the live lane or a hint settled it, its journal entry dropped, the cursor moved. |
| AddressEvents.Source.CatchUpPage | catalog/quicknode/solana/events.go:382-466 | A page is settled and the next one continues where it ended; a last page of a history that stands still leaves nothing unsettled. |
| AddressEvents.Source.CatchUp | catalog/quicknode/solana/events.go:371-467 | Succeeds when the pages and calls it asks for are answered and time allows for the pages of the history; it returns without an error only when all of a history that stands still is behind the cursor, and fails only for a question it asked, a repeated token or the end of its context. |
| AddressEvents.Source.Follow | catalog/quicknode/solana/events.go:106-206 | Over any mix of live messages, catch-ups and restarts an update is committed twice if and only if a notification with an update was delivered after the cursor had passed its record; otherwise every wanted record stays settled. |
| AddressEvents.SaidOnce | catalog/quicknode/solana/events.go:371-487 | Behind the cursor every matching record with an update has it committed exactly once, and every other never. |
| AddressEvents.LateIsTwice | catalog/quicknode/solana/events.go:247-283 | A wanted signature delivered live gets a second update if and only if the cursor had already passed it. |
| AddressEvents.LateNotification | catalog/quicknode/solana/events.go:247-283 | A run from a new source on a healthy endpoint that ends with a second update. |
| AddressEvents.StartsOnTrack | catalog/quicknode/solana/events.go:320-369 | A new source is on track for the history beyond its first cursor. |
| Hashing.FramedInjective | coordinator.go:140-145 | A length-prefixed stream determines its fields and their number. |
| Hashing.FrameStreamsDetermineFrames | coordinator.go:128-149 | Two frames feed the digest the same bytes if and only if they agree in all eight fields. |
| Hashing.FrameStream | coordinator.go:138-146 | The write loop produces that stream. |
| Hashing.JoinedInjective | internal/secrets/secrets.go:238-243 | The decimal-prefixed stream determines its parts, whatever text they hold. |
| Hashing.RefKeyInjective | internal/secrets/secrets.go:38-60 | The joined key of two valid references is equal exactly when group and key are. |
| Hashing.FingerprintIdentifies | internal/secrets/secrets.go:232-245 | For normalized references the streams are equal if and only if the sets of (group, key, value) triples are, in whatever order the values come. |
| Hashing.WriteFingerprint | internal/secrets/secrets.go:232-245 | The nested loops produce that stream. |
| Hashing.Normalize | internal/secrets/secrets.go:62-80 | Fails exactly when some reference is malformed; otherwise sorted, each secret once, required exactly when some mention required it. |
| Sorting.SortRestores | catalog/quicknode/evm/events.go:309-317 | Sorting restores an ascending sequence from any arrangement of it. |

## Left out

- SQL text, SQLite locking, WAL, migrations and pools: a write transaction is one atomic step, a read another, and
  foreign keys are checked where a row is written.
- JSON, base58, SHA-256, HMAC: state, checkpoint and payload values are texts, "valid JSON" is "not empty", and digests
  are structural values equal exactly for equal inputs. Random identifiers are fresh.
- The time stamped into an event's message before delivery, colours, fields and mentions: a message is a title and a body.
- The sentence and footer of a health notice; its title, kind, generation and time are there.
- Destination identifiers are their index, 0 standing for the empty one.
- The artifacts table, `stop_reason`, `last_*` health columns and other text that no decision reads.
- Widths of 64-bit integers: revisions, sequences and block numbers are natural numbers.
- Field-level `Validate` methods: `Emit` and `Session.Commit` take their verdict as a parameter.
- HTTP, WebSocket and JSON-RPC transport, subscriptions and rate limits: an endpoint is a function of the call number.
- Processes, file locks, Keychain, sending to Discord and OpenClaw, the CLI, configuration, scaffolding.
- Timers and the supervisor's deadlines: resends, stops and timeouts may happen at any point.
- `serve`'s loop is modelled as the phases of the daemon in `Protocol.dfy`, not as a method: between two of its
  iterations every other write may change the store.
- `ParseDotenv`, `Resolve` and `normalizeSecretRefs`: the last is `Normalize` with another separator.
- Hint payloads of `solana.AddressEvents`: whether a transaction matches and has an update is fixed by its signature.
- Errors that callers do not tell apart share one value: a run recorded for another generation is reported as fenced.
- ProtocolTheorems.SessionMirrorsStore: checkpoints are compared under the freshness of the hello, because the code does
  not guarantee more (see above); state and revision need no such condition.
- EvmEvents.Source.Follow: blocks below a confirmed head do not change, and log indices grow with the transaction index
  within a block, since the cursor orders by log index and the sort by transaction index first.
- EvmEvents.Source.CatchUp: no live message arrives between its rounds, each of which would give the next more to settle.
- AddressEvents.Source.CatchUp: `budget` pages later the context ends; the source has no bound of its own.
- Workers.Coordinator.Await: the signals of one wait are given as a sequence; when they run out the wait goes on.

# Rota's replicated state machine, in Dafny

Rota is a replicated message broker with a durable-execution engine on the same store. A committed
log of commands moves messages through ready, delayed and leased to acknowledged or dead-lettered;
one time index drives delays, visibility timeouts, lifetime caps, expiries, dedup windows and
workflow timers; workflow runs keep an append-only history behind an optimistic fence. This project
models that state machine and proves what its safety argument needs: facts about every run of the
log and every interleaving of workers, not about one handler at a time.

`dafny verify dfyconfig.toml` checks everything.

## How it is built

- `bytes`, `keys`, `snapshot`: byte order, the order-preserving key codec and its scans, snapshot framing.
  `Keys.EncodeInjective` is why the rest may use typed tables (`store`) in place of one byte-keyed store,
  and `rows` shows that a snapshot of the bytes is a snapshot of those tables.
- `commands`, `handlers`: what each command means, as a function of two stores: the committed one, which
  handlers read, and the batch, which they only write. `backoff` is the retry delay.
- `fsm`: the state machine object. Its methods change records step by step, loop over scans and write to
  the batch, and each is proved equal to the handler function of the same name. `replay`: the log and its restarts.
- `moves`: fourteen elementary queue moves and the invariant each keeps. `journal` and `steps` turn every
  command into a list of moves, at most one of which takes a message out, and it comes first.
- `safety`, `drain`, `dedup`, `singletons`, `reap`: what follows for whole runs of the log. `batch` sets a batch against its
  items one by one, and `collide` says which batches keep the invariant.
- `engine`: the effect each command has on runs, histories, done-markers and workflow timers alone.
  `history`, `outcomes` and `closing` are invariants of those effects, and `answers` says what a caller's answer is worth
  from then on. `gate` is the leader's validation of decisions, and `checksum` says which histories its checksum tells apart.
- `life`: what each command does to one message, said without the handlers. `deliveries` and `settings` are the laws of
  whole runs that follow for messages, leases, tokens and a group's settings.
- `custody`, `dispatch`, `workflows`, `activities`: the worker protocols as state machines over any number of
  workers, with every other command interleaved. `flight` counts a run's tasks, live and in flight, after each command.
- `node`: the leader's timer sweep and lease loop. `scheduler`, `policies`, `wfq`: the weighted-fair
  scheduler, who decides a tick, and its bounds.
- `ring`, `paging`: the fairness ring index and the paged listings.

Floating-point numbers are reals. Payloads and event attributes are the values they decode to. Hashes and
attribute encodings are arbitrary functions. Stamps are parameters of the commands that carry them; a property
that needs them ordered says so. Epochs wrap at 32 bits and sums of stamps at 64.

## Where the code does less than it says

- `internal/fsm/fsm.go:246-247` says items of one batch are not deduplicated against each other; they are
  (`internal/fsm/fsm.go:277-296`), and the model follows the code.
- `internal/fsm/apply_workflow.go:18-20` promises one workflow task in flight per run. The lease path skips leased
  messages, so start, lease, signal, lease puts two in flight (`Flight.TwoTasksInFlight`). A second one is in flight after
  a command exactly if it leases from the group while one is in flight and another is ready (`Flight.SecondInFlightIff`),
  and there are two tasks exactly if those the command leaves there and those it adds are two; one that neither publishes
  nor redrives adds one exactly if it tasks the run (`Flight.TwoTasksIff`). What holds is that a waiting run always has its current one (`Workflows.NoRunWedges`).
- A batch joins a lane and a name with a NUL byte, and neither is checked for one. Two groups that join alike share one
  meta; two dedup keys that join alike lose the second message (`Batch.JoinedKeyDropsMessage`). A batch stamped by the
  leader equals its items one by one exactly when no two items that reach publication clash in either way
  (`Batch.BatchIsOneByOneIff`), and keeps the queue's invariant exactly when the groups of its accepted items join apart
  (`Collide.BatchKeepsInvIff`).
- Two activities of one type and tenant in one decision compute the same message id, and the first is overwritten:
  `Activities.DispatchedIffSeparate` says exactly when every activity of a decision gets its task.
- The determinism checksum does not length-prefix attributes. Its bytes determine only the empty history and a single event
  whose attributes nowhere hold the id two followed by four more bytes (`Checksum.DeterminedIff`). Among histories of the
  current length, which is all the gate can know of the worker's, the check is exact if and only if no two neighbouring events
  are ambiguous (`Checksum.GateIsExactIff`); starting a run with eight chosen bytes makes two so
  (`Checksum.AmbiguousHistoryIsReachable`).
- A timer sweep up to the largest 64-bit stamp visits nothing: `Keys.TimerScanExactIff`.
- A snapshot cut right after the header of a nonempty key restores silently without its remaining rows:
  `Snapshot.AcceptsExactly`.
- A snapshot that carries no applied index leaves the receiver's in place: `Replay.RowlessSnapshotIff`.
- An acknowledgement leaves the message's expiry row armed, and reaping the drained group resets its ids: after publish, lease,
  ack the reap breaks the invariant and the old row takes the group's next message (`Reaping.AckedMessageOutstanding`,
  `Reaping.OldRowTakesNewMessage`). `Reaping.ReapKeepsInvIff` says exactly when a reap is harmless.

## Model

| member | source | states |
|---|---|---|
| Workflows.NoRunWedges | internal/fsm/apply_workflow.go:30-45 | in every state of every interleaving of any number of workers, external events, timeouts, crashes and lost answers, a running run that waits for a decision has the task it was given on entering its current version, and that task is live |
| Workflows.NextKeeps | internal/transport/workflow.go:77-126 | each step of the workflow-worker protocol (lease, read, gate, propose, ack, requeue, crash) and each other command keeps that invariant and every session's knowledge |
| Workflows.NotWantedAfter | internal/node/workflow.go:318-365 | once a decision is proposed, whatever the answer, no run waits for the task it was made on, so acking that task is safe |
| Workflows.WedgeIff | internal/fsm/apply_workflow.go:30-45 | a commit leaves a waiting run without its task if and only if it takes out the task that run still wants |
| Workflows.OtherLanesSafe | internal/fsm/apply_workflow.go:18-45 | a command that takes messages out of other lanes only takes no task a run still wants |
| Activities.NoActivityLost | internal/fsm/apply_workflow.go:332-348 | in every state of every interleaving, an activity of a running run without an outcome has its task in the queue |
| Activities.LostIff | internal/fsm/apply_workflow.go:332-348 | a commit leaves an open activity without its task if and only if it takes out the task it wants and does not bury it |
| Activities.BuryingResolves | internal/fsm/fsm.go:733-759 | a dead-lettered activity task resolves its activity in the same batch |
| Activities.ReportedIsUnwanted | internal/transport/workflow.go:147-153 | after a worker's report, whatever else happened, no open activity depends on the leased task, so acking it is safe |
| Activities.DispatchedIffSeparate | internal/fsm/apply_workflow.go:125-151 | every activity of a decision gets its own live task if and only if no two of them go to the same (type, tenant) group |
| Dispatch.TaskedHasMessage | internal/fsm/apply_workflow.go:226-239 | whichever command tasks a run, its task message is in the queue at the same commit, ready, under the next id of the run's group |
| Dispatch.TaskGroupsDiffer | internal/fsm/apply_workflow.go:18-24 | different runs have different task groups |
| Dispatch.LaneNames | internal/fsm/apply_workflow.go:18-24 | a run's tasks go to its type's lane in the group its id spells in decimal, an activity's to its type's lane in its tenant's group |
| Dispatch.SecondTaskWhileFirstIsLeased | internal/fsm/apply_workflow.go:258-281 | while a run's task is leased, an external event makes a second one leasable |
| Flight.TasksAfter | internal/fsm/apply_workflow.go:222-348 | after every command, publishes, batches and redrives included, a run's group holds the tasks the command left there and as many more as it adds |
| Flight.TwoTasksIff | internal/fsm/apply_workflow.go:222-348 | after every command, publishes, batches and redrives included, a run's group holds two tasks if and only if those the command leaves there and those it adds are two; a command that neither publishes nor redrives adds one if and only if it tasks the run, and never more |
| Flight.TasksIff | internal/fsm/apply_workflow.go:71-348 | which command tasks a run, from the command and the run's record before it |
| Flight.InFlightAfter | internal/fsm/fsm.go:331-512 | the tasks in flight after a command are those before it but the one whose lease it ends, and the one it grants |
| Flight.SecondInFlightIff | internal/fsm/fsm.go:331-398 | a group with at most one message in flight has two after a command if and only if the command leases from it while one is in flight and another is ready |
| Flight.TwoTasksInFlight | internal/fsm/apply_workflow.go:18-24 | starting a run, leasing its task, signalling it and leasing again puts two of its tasks in flight |
| Custody.Survives | internal/fsm/fsm.go:331-759 | a message stays, with its content, under every command that does not take it out |
| Custody.StepFramesLeases | internal/fsm/fsm.go:782-790 | a lease id once handed out never names another message |
| Custody.StaysKnown | internal/fsm/fsm.go:155-156 | an id once handed out stays handed out |
| Lifecycle.MessageStep | internal/fsm/fsm.go:331-759 | what every command does to every live message, from the command and the message alone: stays, leaves, handed out, requeued ready or delayed with which attempts, extended, ripened; every change is one epoch on |
| Lifecycle.NewStep | internal/fsm/fsm.go:147-201 | a message that appears is under an id its group has not handed out, with no attempt behind it |
| Lifecycle.PublishStores | internal/fsm/fsm.go:147-223 | an accepted publish stores what it was given under the group's next id, delayed exactly if its time lies ahead, with its delay, expiry and dedup window armed |
| Lifecycle.RepeatStoresNothing | internal/fsm/fsm.go:203-223 | a publish whose key has an open window is answered with the id that window was opened for, and stores nothing |
| Lifecycle.GrantTold | internal/fsm/fsm.go:331-398 | a lease is granted exactly when the group has a ready message, on its oldest, under a new id, until the deadline asked for |
| Lifecycle.LeaseTold | internal/fsm/fsm.go:400-542 | ack, nack, extension and completion answer whether the lease or token was there, and a nack whether it buried the message |
| Lifecycle.ControlTold | internal/fsm/apply_phase4.go:145-217 | pause, resume and configuration touch the group's settings alone; a purge or cancel answers with the number of messages it took, every one not leased |
| Deliveries.PublishedIsDelivered | internal/fsm/fsm.go:147-398 | over every log, whatever lease hands out a published message hands out the payload, headers, limit and token fields it was published with |
| Deliveries.DelayHolds | internal/fsm/fsm.go:147-201 | over every log, a message published for later is neither ready nor leased until its ready-at row fires |
| Deliveries.AttemptsAreRetries | internal/fsm/fsm.go:459-489 | over every log, a live message has as many attempts behind it as it was retried |
| Deliveries.NthRetryBuries | internal/fsm/fsm.go:459-489 | over every log, a message with a limit of n (three if it asked for none) outlives its first n-1 retries, and the n-th buries it with all n attempts |
| Deliveries.DeadlineStands | internal/fsm/fsm.go:514-542 | over every log, a lease runs until the deadline last asked for it, by its grant or an extension, and that deadline is armed |
| Deliveries.TokenSpent | internal/fsm/apply_phase4.go:348-371 | over every log, a completion token that has been used is unknown from then on unless it is issued again |
| Deliveries.TokenIsIssued | internal/fsm/apply_phase4.go:320-371 | a token issued for a lease that stands is that lease's; for any other nothing changes |
| Settings.PausedIff | internal/fsm/apply_phase4.go:163-175 | over every log, a group is paused if and only if it was paused while it existed and not resumed since |
| Settings.ConfigStands | internal/fsm/apply_phase4.go:145-161 | over every log, a configured weight and batch size are what the group has until it is published to or configured again |
| Settings.SettingsStand | internal/fsm/fsm.go:44-133 | over every log, a group's weight, batch size and pause change only under a command that carries settings for that group |
| Settings.WeightNeverZero | internal/fsm/fsm.go:147-165 | over every log no group is stored with weight zero |
| Settings.UnsetIsDefault | internal/fsm/fsm.go:135-145 | over every log, a group never given settings has weight one, batches of one, and is not paused |
| History.ReachableShape | internal/fsm/apply_workflow.go:66-89 | at every point of every log, run ids come from the counter, a run's event ids are exactly 1..seq, and markers mark scheduled activities |
| History.NoRewrite | internal/fsm/apply_workflow.go:100-121 | from any point of a log to any later one, no event changes, runs keep their identity, histories only grow and closed runs do not change |
| History.OneCommitPerVersion | internal/fsm/apply_workflow.go:107-118 | at most one nonempty decision commits per (run, epoch, seq), whatever commands interleave |
| History.CommitExtendsGatedPrefix | internal/fsm/apply_workflow.go:120-169 | a decision that commits extends exactly the history that was current when it was made, with its events at seq+1, seq+2, ... |
| History.EpochsStayBelow | internal/fsm/apply_workflow.go:159-165 | with framed decisions a run's epoch is at most its length less one |
| Outcomes.OutcomesOnce | internal/fsm/apply_workflow.go:194-239 | over every log, a done-marker exists if and only if the history holds an outcome of that activity, and it never holds two |
| Outcomes.TimersFireOnce | internal/fsm/apply_workflow.go:245-288 | over every log, each TIMER_STARTED has at most one TIMER_FIRED, none comes without one, and a fired timer has no armed row |
| Outcomes.NoTimerLost | internal/fsm/apply_workflow.go:245-288 | over every log, each timer a running run has started is armed at the time its event asks for, or has fired |
| Closing.StatusIsHistory | internal/fsm/apply_workflow.go:119-169 | over every log, a run is running if and only if its history holds no closing event, and otherwise completed, failed, canceled or continued exactly as its last closing event says |
| Closing.RecordIsHistory | internal/fsm/apply_workflow.go:66-89 | over every log of framed decisions, a run's first event carries the input and start of its record, and its last event the stamp the record last moved at |
| Closing.VersionMoves | internal/fsm/apply_workflow.go:162-165 | any command leaves a run's record alone or moves a running run on by one epoch, never back in its history, keeping its identity |
| Closing.ContinuesAsNew | internal/fsm/apply_workflow.go:151-160 | a committed continuation starts one run of the same type and tenant with the carried input, as a child, with its task dispatched |
| Answers.StartAnswer | internal/fsm/apply_workflow.go:66-97 | a start is answered with a new run whose record is as asked, and from then on its first event holds the input |
| Answers.DecisionAnswer | internal/fsm/apply_workflow.go:107-169 | a decision is accepted if and only if it names the running run's epoch and length; from then on its events are the run's next ones in order; each refusal has its reason and changes nothing |
| Answers.ActivityAnswer | internal/fsm/apply_workflow.go:177-240 | an activity's report is accepted if and only if the run runs, scheduled it and has no outcome of it, and is then forever the event whose id it is answered with; each refusal has its reason and changes nothing |
| Answers.SignalAnswer | internal/fsm/apply_workflow.go:258-290 | a signal to a running run is its next event from then on, and to any other changes nothing |
| Answers.CancelAnswer | internal/fsm/apply_workflow.go:292-317 | a cancellation of a running run is its last event from then on, with the reason given; any other is refused and changes nothing |
| Answers.TimerAnswer | internal/fsm/fsm.go:661-668 | a workflow timer that fires for a running run is its next event from then on; for any other no run changes |
| Answers.LettersTold | internal/fsm/fsm.go:733-759 | which command writes which dead letter: the message, its attempts, the reason and the consumer's note, under its stamp, and no other letter changes |
| Answers.BurialAnswer | internal/fsm/fsm.go:733-759 | a dead-lettered activity task is its run's failed outcome from then on, carrying the reason of its death |
| Answers.BurialQuiet | internal/fsm/fsm.go:733-759 | a dead letter of any other lane, or of an activity no run owes, changes no run |
| Durable.StepEffect | internal/fsm/apply_workflow.go:91-348 | each command changes runs, histories, markers and workflow timers by exactly one named effect, including reports from buried activity tasks |
| Durable.NackEffect | internal/fsm/fsm.go:432-512 | a nack touches a run only by reporting the activity task it buries |
| Gate.Validate | internal/node/workflow.go:180-211 | a decision is submitted if and only if the run is running at the given version, the checksum of the committed prefix matches and every command is known; each refusal has its exact cause |
| Gate.TranslateCommands | internal/node/workflow.go:215-240 | a frame and one event per command in order, or nothing if any kind is unknown |
| Gate.TranslatedByName | internal/node/workflow.go:215-240 | the i-th command is of a kind if and only if event i+1 is the event of that kind, carrying what the worker sent: result, input, activity, or the leader's time plus the delay |
| Gate.DecisionEndsRun | internal/node/workflow.go:318-365 | a translated decision that commits leaves the run completed, failed or continued exactly as the name of its last closing command says, and running if it has none |
| Gate.TranslatedIsTame | internal/node/workflow.go:215-240 | translated decisions are framed, carry no leader-only event, and are separate exactly when their activity types are distinct |
| Gate.HistoryChecksum | internal/node/workflow.go:140-154 | the checksum of the run's events up to the id or the first gap |
| Gate.PrefixChecksumOf | internal/node/workflow.go:160-171 | hashes id, type and attributes of each event in order |
| Gate.UptoIsWhole | internal/node/workflow.go:140-154 | in a well-formed history the checksum covers every event up to the id |
| Gate.WireDetermines | internal/node/workflow.go:160-171 | what is hashed of an event determines its kind and attributes when the encoding of attributes does |
| Gate.CommittedFromTheGatedHistory | internal/node/workflow.go:180-211 | the events whose checksum was compared are the whole history at commit and stay its prefix afterwards |
| Gate.SameBytesSameHistory | internal/node/workflow.go:156-171 | histories whose attributes agree in length hash the same bytes if and only if they are equal |
| Gate.OneEventHashesLikeTwo | internal/node/workflow.go:156-171 | a history of one event and a different one of two feed the hash the same bytes |
| Checksum.DeterminedIff | internal/node/workflow.go:156-171 | the hashed bytes determine a gap-free history if and only if it is empty, or one event whose attributes nowhere hold the id two followed by at least four bytes |
| Checksum.DeterminedAtLengthIff | internal/node/workflow.go:156-171 | among histories of its length the hashed bytes determine a history if and only if no two neighbours' attributes, read on through the header between them, hold that header a second time |
| Checksum.GateIsExactIff | internal/node/workflow.go:180-211 | with a collision-free hash the gate takes no other history of the current length for the committed one if and only if no two neighbours of it are ambiguous |
| Checksum.StartedIsDeterminedIff | internal/fsm/apply_workflow.go:66-89 | the history a start leaves is determined by its bytes if and only if the caller's input nowhere holds the id two and four more bytes |
| Checksum.AmbiguousHistoryIsReachable | internal/fsm/apply_workflow.go:66-89 | starting a run with the eight bytes of the id two and signalling it leaves a history the checksum does not tell from another of its length |
| Moves.PlayKeepsInv | internal/fsm/fsm.go:331-759 | each elementary move keeps the queue invariant: keys, leases with their deadlines, delays with their rows, references, dead letters, exact counters |
| Steps.StepRuns | internal/fsm/fsm.go:44-133 | every command but a redrive is a list of enabled moves: its removal, if it has one, then moves that take nothing out |
| Steps.DeadRuns | internal/fsm/fsm.go:733-759 | a dead letter is a burial, and the report to its run commutes with the counters written after it |
| Steps.BatchRuns | internal/fsm/fsm.go:273-329 | a batch whose accepted items write under their own groups' names is a run of enqueues, whatever its duplicates |
| Steps.PurgeIsDrop | internal/fsm/apply_phase4.go:186-217 | the purge's saturating arithmetic yields exactly what it leaves |
| Steps.StepKeepsInv | internal/fsm/fsm.go:44-133 | every known command, and every batch whose groups join apart, keeps the queue invariant |
| Collide.BatchKeepsInvIff | internal/fsm/fsm.go:297-329 | a batch keeps the queue invariant if and only if the groups of its accepted items join apart |
| Collide.StepKeepsInvIff | internal/fsm/fsm.go:44-133 | a known command keeps the queue invariant if and only if it is no batch, or one whose accepted groups join apart |
| Journal.PublishReadyRuns | internal/fsm/apply_phase4.go:296-318 | a dispatch is an enqueue; a second one to the same group in one batch computes the same id and overwrites the first |
| Safety.ReachableInv | internal/fsm/fsm.go:44-133 | the queue invariant holds after every log of allowed commands |
| Safety.LeaseBijection | internal/fsm/fsm.go:331-398 | leased messages, lease rows and deadline rows are in bijection, with equal due time and epoch |
| Safety.DelayedHasOneTimer | internal/fsm/fsm.go:717-731 | a delayed message has exactly one ready-at row, carrying its epoch; any other live message has none |
| Safety.DecrementsNeverSaturate | internal/fsm/fsm.go:911-915 | a live message is counted, so no decrement on its behalf saturates |
| Safety.ReadyCountFindsHead | internal/fsm/fsm.go:762-780 | the ready counter is positive if and only if the head scan finds a message, which is the group's oldest ready one |
| Safety.CommandExact | internal/fsm/fsm.go:331-759 | exactly the messages a command takes out are gone, the others keep their content, new ones carry fresh ids, and dead letters change only by the burial |
| Safety.RedriveExact | internal/fsm/apply_phase4.go:96-143 | a redrive moves one dead letter to one fresh message with the same payload, or does nothing |
| Safety.RedriveOnce | internal/fsm/apply_phase4.go:90-95 | a second redrive of the same id changes nothing |
| Safety.RunsBalance | internal/fsm/fsm.go:147-201 | over every log, each id handed out is in exactly one place: live, dead, acked, dropped or redriven; no other id is anywhere |
| Safety.LedgerAddsUp | internal/fsm/fsm.go:147-201 | a group's five places add up to the number of ids it has handed out |
| Reaping.ReapKeepsInvIff | internal/fsm/apply_phase4.go:48-55 | a successful reap keeps the queue invariant if and only if no timer and no dead letter of the group is left |
| Reaping.OldRowTakesNewMessage | internal/fsm/apply_phase4.go:45-55 | an expiry row that outlives a reap dead-letters the new message that reuses its id |
| Reaping.AckedMessageOutstanding | internal/fsm/fsm.go:400-430 | publish with a lifetime, lease and ack drain the group and leave its expiry row armed, so the reap breaks the invariant and the row takes the next message |
| Drain.FireConsumes | internal/fsm/fsm.go:547-711 | a fire removes its row and arms none; on a row that is gone it is a no-op |
| Drain.SweepProgress | internal/node/node.go:589-623 | a sweep leaves as many fewer due rows as it fired, and none if its batch was not full |
| Drain.DryMeansNothingOverdue | internal/fsm/fsm.go:547-711 | with no due row left every lease still runs and every delay is pending |
| Drain.DrainedIsAllReady | internal/fsm/fsm.go:547-711 | once every due time has passed and the rows are drained, every message is ready and no lease is left |
| Leader.Node.SweepTimers | internal/node/node.go:589-623 | fires one bounded batch of due rows in key order, each in its own entry with its own stamp |
| Leader.Node.CollectDue | internal/node/node.go:599-611 | the batch: due rows in the byte order of their keys, which is order of due time, none left out before one taken |
| Leader.Node.DrainDue | internal/node/node.go:573-587 | repeated sweeps terminate with nothing overdue |
| Leader.Node.Candidates | internal/node/node.go:348-377 | the candidate list: every group with ready messages that is not paused, allowed and not denied, once |
| Leader.CandidatesAreCounted | internal/node/node.go:348-377 | what the scheduler is shown of a candidate is true: backlog its ready messages, load those in flight, weight the stored one |
| Leader.PauseGates | internal/node/node.go:348-377 | a paused group is no candidate whatever is ready in it, and resuming makes it one exactly if something is and the lists allow it |
| Leader.Node.LeaseOneFiltered | internal/node/node.go:342-410 | a lease is granted exactly when some group is eligible, from the group the scheduler's tick over the candidates picks, on its oldest ready message |
| Dedup.SweepingUnobservable | internal/fsm/fsm.go:245-269 | with nondecreasing stamps every publish is answered as if no expired window had ever been swept |
| Dedup.OnePerWindow | internal/fsm/fsm.go:203-223 | no publish of a key is accepted while the window an earlier accepted one opened is open, within a batch or across the log |
| Dedup.SweepTakesClosed | internal/fsm/fsm.go:697-709 | a sweep takes out a closed window only; a renewed key survives its older timer |
| Dedup.SweepIff | internal/fsm/fsm.go:697-709 | a sweep that fires takes out its window's row if and only if that window is closed by then, and no other row |
| Batch.BatchIsOneByOneIff | internal/fsm/fsm.go:273-329 | under the leader's stamps a batch gives the ids, duplicate flags and store of its items published one by one if and only if no two items that reach publication are of different groups, or different dedup keys, that join to the same name |
| Batch.BatchIsOneByOne | internal/fsm/fsm.go:273-329 | so it does over any store if all names of the batch join apart |
| Batch.JoinedKeyDropsMessage | internal/fsm/fsm.go:286-296 | with groups that join apart and two dedup keys that join alike, the batch answers the second item as a duplicate and stores no message for it, while one by one it is published |
| Batch.KeylessBatchIsOneByOneIffApart | internal/fsm/fsm.go:297-303 | without dedup keys a batch leaves the store of its items one by one if and only if no two of its groups join to the same name |
| Batch.PlainLanesOrderly | internal/fsm/fsm.go:291-297 | lanes without NUL keep all of a batch's joined names apart |
| Singletons.FencesIncrease | internal/fsm/apply_phase4.go:378-385 | fences of successful acquires strictly increase over any log, across releases |
| Singletons.OneHolder | internal/fsm/apply_phase4.go:373-407 | a different holder is granted only after the last holder acted on the lease again or the deadline it last stored has passed |
| Singletons.AcquireIff | internal/fsm/apply_phase4.go:379-386 | an acquire succeeds if and only if the name is free, its deadline has passed, or the holder is the same; then the record is the caller's under the next fence until now plus the time to live |
| Singletons.KeepIff | internal/fsm/apply_phase4.go:387-404 | a renew or release succeeds if and only if the stored record has that holder and that fence; a refused one changes nothing |
| Singletons.StaleFenceRefused | internal/fsm/apply_phase4.go:387-404 | over every log, after a successful acquire every renew or release of the name with a smaller fence is refused and leaves the table as it was |
| Singletons.ReleaseFrees | internal/fsm/apply_phase4.go:394-404 | over every log, after a successful release the next acquire of the name succeeds, whoever asks |
| Frames.StepKeepsRest | internal/fsm/fsm.go:44-133 | only publishes and sweeps write the dedup table, only singleton commands the singleton table |
| Replay.RestartAndReplay | internal/fsm/fsm.go:28-58 | stop anywhere, restart, replay from any earlier point: the same state as applying the log once, with entries that failed |
| Replay.SnapshotAndReplay | internal/fsm/fsm.go:799-839 | install a snapshot anywhere and replay any overlapping suffix: the same state |
| Replay.RowlessSnapshotIff | internal/fsm/fsm.go:835-838 | a snapshot without an applied index is safe for every log if and only if the receiver has applied nothing |
| Replay.HandedOverIsInert | internal/fsm/fsm.go:50-52 | an entry already handed over would change nothing now, whether it committed or failed |
| Replay.NodeIsItsCommands | internal/fsm/fsm.go:44-133 | a node that is handed a log holds the store its decodable, non-failing commands lead to, each applied once and in order |
| Fsm.Machine.Apply | internal/fsm/fsm.go:44-133 | data and applied index commit together; stale, undecodable and unknown entries change nothing, each with its own answer |
| Fsm.Machine.constructor | internal/fsm/fsm.go:28-36 | memory is rebuilt from the stored applied index |
| Fsm.Machine.Dispatch | internal/fsm/fsm.go:63-118 | the switch: each command does what its handler means |
| Fsm.Machine.PublishOne | internal/fsm/fsm.go:147-201 | writes one message and its timers under the evolving meta |
| Fsm.Machine.ApplyPublish | internal/fsm/fsm.go:203-223 | a duplicate answers with the earlier id; otherwise message, meta and window |
| Fsm.Machine.ApplyPublishBatch | internal/fsm/fsm.go:273-329 | one pass with evolving metas and the batch's own keys, then one write per group |
| Fsm.Machine.RecordDedup | internal/fsm/fsm.go:261-269 | the row and its sweep timer, only for an open window |
| Fsm.Machine.HeadReady | internal/fsm/fsm.go:762-780 | the oldest ready message of a group |
| Fsm.Machine.ApplyLease | internal/fsm/fsm.go:331-398 | lease row, deadline, optional lifetime cap, message and counters |
| Fsm.Machine.ApplyAck | internal/fsm/fsm.go:400-430 | message, lease, token and deadline go, counters follow |
| Fsm.Machine.ApplyNack | internal/fsm/fsm.go:432-512 | requeue, back off, or dead-letter, by mode and attempts |
| Fsm.Machine.ApplyExtend | internal/fsm/fsm.go:514-542 | the old deadline row is replaced and the epochs move together |
| Fsm.Machine.ApplyFire | internal/fsm/fsm.go:547-711 | acts by kind on a row still there, and removes it |
| Fsm.Machine.FireDeadline | internal/fsm/fsm.go:579-626 | a visibility timeout reclaims the lease if the epoch is current |
| Fsm.Machine.FireMaxLife | internal/fsm/fsm.go:628-659 | the lifetime cap dead-letters whatever the extensions |
| Fsm.Machine.FireExpiry | internal/fsm/fsm.go:670-695 | an undelivered message expires |
| Fsm.Machine.MakeReady | internal/fsm/fsm.go:717-731 | ready now, or delayed with a row carrying the new epoch |
| Fsm.Machine.DeadLetter | internal/fsm/fsm.go:733-759 | dead-letter row, removal, and the report to the run |
| Fsm.Machine.DropLeasable | internal/fsm/apply_phase4.go:186-217 | deletes and counts every ready and delayed message |
| Fsm.Machine.ApplyLifecycle | internal/fsm/apply_phase4.go:163-181 | pause, resume, and the two purging operations |
| Fsm.Machine.ApplyGroupConfig | internal/fsm/apply_phase4.go:145-161 | weight and batch size, never zero weight |
| Fsm.Machine.ApplyRedrive | internal/fsm/apply_phase4.go:96-143 | the first dead letter of the id is published anew and deleted |
| Fsm.Machine.ApplyIssueToken | internal/fsm/apply_phase4.go:320-330 | token on the lease and token row |
| Fsm.Machine.ApplyComplete | internal/fsm/apply_phase4.go:348-371 | the token row goes, then an ack or a retry nack |
| Fsm.Machine.ApplySingleton | internal/fsm/apply_phase4.go:373-407 | acquire, renew and release of a fenced lease |
| Fsm.Machine.PublishReady | internal/fsm/apply_phase4.go:296-318 | an immediately leasable message from the committed meta |
| Fsm.Machine.DispatchWorkflowTask | internal/fsm/apply_workflow.go:30-45 | a task only for a running run without one pending |
| Fsm.Machine.CreateRun | internal/fsm/apply_workflow.go:66-89 | id, first event, task and record in one batch |
| Fsm.Machine.ApplyAppend | internal/fsm/apply_workflow.go:107-169 | the fence, the events with their side effects in order, the new record |
| Fsm.Machine.AppendExternalEvent | internal/fsm/apply_workflow.go:258-281 | one event, a new version and a fresh task |
| Fsm.Machine.RecordActivityTerminal | internal/fsm/apply_workflow.go:194-239 | one outcome per scheduled activity of a running run, each refusal with its reason |
| Fsm.Machine.ApplyCancel | internal/fsm/apply_workflow.go:292-317 | a terminal event and no task |
| Backoff.BackoffMs | internal/fsm/backoff.go:21-46 | the retry delay lies between half a second and thirty |
| Backoff.Schedule | internal/fsm/backoff.go:21-46 | the base doubles from half a second, jitter adds at most a quarter, and from the sixth attempt on the delay is thirty seconds |
| Backoff.NeverShorter | internal/fsm/backoff.go:21-46 | a later attempt never waits less than an earlier one, whichever the messages |
| Keys.EncodeLP | internal/storage/keys.go:49-57 | the two-byte length prefix, written in place |
| Keys.TakeLPExact | internal/storage/keys.go:58-68 | taking a length-prefixed name back gives it and the rest if and only if it fits |
| Keys.EncodeInjective | internal/storage/keys.go:70-303 | different keys of any tables encode differently |
| Keys.ParseInvertsRef | internal/storage/keys.go:141-268 | each reference parser inverts its builder |
| Keys.ParseInvertsTimeIndex | internal/storage/keys.go:118-140 | a time-index key parses back to its due time, kind and reference |
| Keys.ComputePrefixEnd | internal/storage/keys.go:307-317 | the backward loop finds the last byte that can grow, or no bound |
| Keys.PrefixScan | internal/storage/keys.go:305-317 | a prefix scan visits exactly the keys with that prefix, for every prefix |
| Keys.MessageScan | internal/storage/keys.go:81-85 | for names under 65536 bytes a group's scan visits exactly that group's messages |
| Keys.MessageOrder | internal/storage/keys.go:73-79 | a group's messages are scanned in id order |
| Keys.DLQScan | internal/storage/keys.go:188-192 | a group's dead-letter scan visits exactly that group's letters |
| Keys.HistoryScan | internal/storage/keys.go:243-254 | a run's history scan visits exactly that run's events |
| Keys.TimerScanExactIff | internal/storage/keys.go:126-132 | the sweep range holds exactly the timers due by ts if and only if ts+1 does not wrap |
| Keys.TimerOrder | internal/storage/keys.go:118-124 | timers are scanned in due order |
| Keys.AppKeyspace | internal/storage/keys.go:286-303 | every application key lies in the snapshot range and no raft key does |
| Snapshot.Disk.Persist | internal/fsm/fsm.go:843-869 | streams the scanned rows as length-prefixed chunks |
| Snapshot.Disk.Restore | internal/fsm/fsm.go:799-839 | clears the application range and replays the stream in flushed batches, or stops at the first broken row |
| Snapshot.PersistRestore | internal/fsm/fsm.go:799-869 | a persisted store restores its application rows and leaves the receiver's raft rows alone |
| Snapshot.RestoredIndex | internal/fsm/fsm.go:835-838 | the receiver adopts the applied index the snapshot carries, or keeps its own |
| StoreRows.RestoreIsTyped | internal/fsm/fsm.go:799-869 | a snapshot of the bytes that hold a node, restored over any others, holds that node and no other store, with the applied index the typed restore gives |
| StoreRows.PlacesApart | internal/storage/keys.go:68-303 | rows of the typed store that lie in different places have different key bytes |
| Snapshot.AcceptsExactly | internal/fsm/fsm.go:883-893 | a stream is accepted if and only if it is whole rows, optionally cut right after the header of a nonempty key |
| Scheduler.LaneState.PickGroup | internal/scheduler/scheduler.go:108-196 | one tick: newcomers join at the least clock, the ranking's winner is served and charged |
| Scheduler.LaneState.Rank | internal/scheduler/scheduler.go:148-160 | the policy's scores, or virtual time with a recorded fault, or virtual time in quarantine |
| Scheduler.LaneState.Join | internal/scheduler/scheduler.go:116-131 | first-time groups start at the given clock |
| Scheduler.LaneState.Fault | internal/scheduler/scheduler.go:198-207 | faults count inside a window and quarantine at the threshold |
| Scheduler.BestIsHighest | internal/scheduler/scheduler.go:162-175 | the winner has backlog, the highest score and among equals the lowest id; a pick happens exactly when some group has backlog |
| Policies.PolicyDecides | internal/scheduler/scheduler.go:108-180 | an installed policy outside quarantine is shown the lane field by field; with a finite score for each group the one served has backlog and the greatest score, ties to the lowest id; any other answer is a fault and the least clock wins |
| Policies.StrictDecides | internal/scheduler/scheduler.go:146-175 | strict priority serves the group with backlog and the most weight, a unit of weight making up for a million units of clock |
| Policies.ClockDecides | internal/scheduler/scheduler.go:146-175 | without a policy, in quarantine, and under weighted fair and completion-aware queueing, the group served has backlog and the least clock |
| Policies.ServedIsCharged | internal/scheduler/scheduler.go:176-196 | the served clock moves by one over the weight, or under an obeyed completion-aware policy by one more than its load over the weight; no other known clock moves |
| Policies.BeforeIsByteOrder | internal/scheduler/scheduler.go:169-175 | ties go by byte order of ids |
| Policies.QuarantinedIff | internal/scheduler/scheduler.go:198-207 | a run of ticks quarantines a lane if and only if five of its faults fall in one window, a window being opened by the first fault more than ten seconds after the last opener |
| Policies.QuarantineNeedsFive | internal/scheduler/scheduler.go:198-207 | no lane is quarantined whose policy did not fail five times within ten seconds |
| Scheduler.QuarantinedTick | internal/scheduler/scheduler.go:148-160 | a quarantined lane ticks as a plain weighted-fair lane |
| Scheduler.FaultsInWindow | internal/scheduler/scheduler.go:198-207 | faults inside one window quarantine the lane exactly from the fifth on |
| Wfq.ClockTick | internal/scheduler/scheduler.go:108-196 | a tick serves a least clock and moves only it, by one turn or its charge |
| Wfq.WeightedFairness | internal/scheduler/scheduler.go:108-196 | while two groups stay candidates their weighted service differs by at most one turn of each |
| Wfq.CompletionAwareSpread | internal/policy/builtin.go:26-56 | under completion-aware charges with at most m in flight clocks stay within (1+m) turns |
| Wfq.BoundedWait | internal/scheduler/scheduler.go:108-196 | over a fixed candidate set a group is served within 1 plus the sum over the others of 1 + floor(w_i/w_j) ticks |
| Wfq.JoinKeepsSpread | internal/scheduler/scheduler.go:116-131 | groups that join at the least clock keep every pair within one turn |
| Ring.Projection.Record | internal/node/fairness.go:75-117 | the ring and its windowed counts agree with the log of all events after each record |
| Ring.Projection.Snapshot | internal/node/fairness.go:134-157 | counts of the last events of the lane, their sum, and the newest of them in order |
| Ring.EvictedIndexes | internal/node/fairness.go:78-91 | forgetting the oldest event keeps the counts exact and free of zeroes |
| Paging.ListPage | internal/node/stats.go:44-76 | one page and the token of its last row, empty on the last page |
| Paging.PaginationIsFullScan | internal/node/stats.go:22-76 | following tokens from the empty one ends and lists every matching row once, in key order |
| Paging.ListingsAreFullScans | internal/node/stats.go:44-150 | both the lane-prefixed listing and the lane-filtered lease table page to their full scans |
| Paging.HexRoundTrip | internal/node/stats.go:31-41 | a page token decodes to the key it encodes |
| Paging.HexDecodesIff | internal/node/stats.go:30-42 | a token decodes if and only if it is pairs of hexadecimal digits, in either case |
| Paging.BadTokenStartsOver | internal/node/stats.go:30-42 | a token that does not decode lists from the start |

## Left out

- Cron: rescheduling leaves the old timer row behind and a fire carries no due slot, so it has no exactly-once claim; no other command reads its rows.
- ReapGroup in the log: it resets a group's ids; `Reaping` treats it on its own, with the exact condition under which it is harmless.
- TeardownGroup: a purge followed by the same loss of the group's ids, across lanes; not modelled.
- SetPolicy, SetLaneConfig and auth-principal commands: they write rows no modelled handler reads.
- Compiled CEL and WASM policies: any score function that may fail or answer with the wrong number of scores; compilation, validation fixtures and the lottery policy's hash are not modelled.
- Lane pause, token-bucket limits, meters and the lanes map of the scheduler: one lane's scheduling state is modelled, and its gate is taken as open.
- Storage, marshalling and log errors: `Replay` covers any deterministic handler error; the handlers themselves are modelled as not failing, so the atomic flag of a batch has no effect here.
- Decoding one payload type from another's bytes: a payload is a workflow task, an activity task or neither.
- 64-bit overflow of ids, fences, counters and run ids: they are unbounded here.
- Penalised lease expiry: the source compiles it out with a constant, and only the branch it takes is modelled.
- Cron rows in a sweep's batch: `Leader.Node.CollectDue` takes the rows of the typed store, which has none.
- Subscriptions of the fairness projection, metrics, health, cluster membership, backups, transports and the wire API.
- Leader.Node.LeaseOneFiltered: minting or registering a completion token after the grant is a separate command and is not part of this method.
- Workflows.NoRunWedges: excludes commands that take out a task a run still wants, which by `Workflows.WedgeIff` are exactly those that wedge one: purges, retry or dead-letter nacks, lifetime caps and raw acks or completions of such a task.
- Activities.NoActivityLost: excludes commands that take out the task of an open activity other than by burying it, which by `Activities.LostIff` are exactly those that lose one (purges and raw acks or completions), and decisions that send two activities to one group.
- Outcomes.OutcomesOnce: assumes decisions come from the gate, which never emits completion or firing events.
- Dedup.SweepingUnobservable: assumes nondecreasing leader stamps on publishes and fires.
- Wfq.WeightedFairness: a group that leaves and returns keeps its old clock and is not covered.

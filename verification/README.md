# Interview booking and answer service: a verified model

The repository is a system for booking interviews and a service that answers questions about a résumé
with a language model and a knowledge base. This project models its stateful core and proves what that
core is for.

**Booking.** Five tables (slots, appointments, company exceptions, availability overrides, outbox events)
and the transactions over them. `BookingStatements` holds single SQL statements as functions,
`BookingTransactions` whole transactions, `BookingInvariants` what holds between them, `BookingProofs` and
`BookingTheorems` why; `BookingService` issues the same transactions statement by statement on a mutable
`Database` with rollback, each method proved against its function, and `BookingAnswers` says of each function,
row by row, when it commits, which code any other call gets and what a commit leaves. `AvailabilityTheorems` is about the
status of free slots. `Outbox` interleaves the booking transactions with any number of notification
workers; `RowLocks` takes creation, reschedule and cancellation apart into row-lock steps; `WaitOrder` is
about waiting for those locks; `LockAnswers` compares the steps with the transactions as single steps. `ReminderTheorems` is about the reminders of appointments that have ended.
`ReachableStates` holds runs from the empty schema that end in the states the theorems warn of.

**Answers.** `CircuitBreaker` (in process, and shared through Redis scripts), `Gateway` (retries),
`RateLimiter`, `SemanticCache`, `AnswerStream` (one streamed answer from the guards to the stored
message; `StreamAnswers` tells it from the inputs alone, as `BreakerAnswers` does for the breaker), `SseParser` (the printer on the server and the incremental parser in the browser), `SlotFeed`
(change detection on the server and the merge in the browser).

**Search and text.** `Ranking` (score tables and the stable descending sort), `RankFusion`, `Bm25`,
`Chunking`.

How the source's terms are rendered:

- Instants of the booking system are whole seconds of UTC; Asia/Shanghai is UTC plus eight hours. The
  breaker counts milliseconds, the rate limiter a real clock, the cache seconds.
- Ids are numbers that the request brings along, as the freshly drawn UUIDs do; a clash is modelled and
  ends in an internal error. Encrypted columns are one opaque value `details`; the company fingerprint is
  an opaque value; companies are a set of fingerprints.
- The outbox is a map from the idempotency key, which contains the event's type and appointment.
- When an insert violates several unique indexes the server may report any of them, so a refused
  transaction carries the set of codes it may answer with. A refusal leaves all tables as they were, also
  the completion sweep that the transaction had already issued.
- The release query takes one covering override with no order; `pick` is what it happened to return.
- Replies of the model, the tools, Redis, the searches, JSON.parse, the logarithm, the similarity and the
  white-space test are parameters; the theorems hold for every choice of them.
- Scores are real numbers.

What turned out not to hold, and when it does:

- Recomputing a window after an override edit does not look at the official calendar. After any edit a free
  slot in its window has the calendar's status exactly when one of the overrides there now are covers it or
  the calendar makes it available (`EditKeepsCalendarIff`); on every holiday some run opens a half hour with
  a single override that forbids a part of it (`HolidayOpened`), and some run with one that is added and
  deleted again (`HolidayForgotten`). Adding an override and deleting it again restores every status exactly
  when each free slot in its window had the status the other overrides ask for (`CameAndWentIff`).
- Releasing slots leaves them as the overrides ask exactly when none of them has opposite covering overrides
  (`ReleaseUpToDateIff`; a run that fails: `ContestedRelease`), and cancelling a fresh booking restores its
  slots exactly when they were as the overrides ask before (`CancelUndoesCreateIff`).
- With row locks, a slot that is being released by a move or a cancellation is invisible to an override that
  commits in between. The commit is what one step would do then exactly if the statuses found at the release
  still fit the overrides (`MovingCommits`, `CancellingCommits`); in some run a slot ends available although
  the only override that covers it forbids it (`StaleRelease`).
- A cancellation withdraws pending reminders only. With bookings and workers going on, a reminder of an ended
  appointment can be pending again exactly unless each of its reminders is withdrawn, delivered or left
  behind by a crash, or too old for a requeue and not pending (`SilentIff`). Before the call that means: none
  young enough has failed or is in a worker's hands (`EndingSilencesIff`). Two runs in which one comes back:
  `ReminderAfterCancel`, where it had failed before, and `ClaimedReminderAfterCancel`, where the worker that
  held it failed afterwards.
- Events claimed by a worker that crashed can stay processing for ever (`OrphanStays`). A crash leaves such
  an event behind exactly when its worker still owed a first mark (`CrashOrphansIff`), and no other step does
  (`StepAttends`).
- A probe of the shared breaker that never reports blocks all calls exactly until its key expires
  (`SharedHalfOpenRefuses`); the local breaker stays blocked (`HalfOpenRefuses`).
- The shared breaker answers like the local one exactly when the recovery time is at least a millisecond:
  it rounds zero up (`SharedRefinesLocalIff`).
- A window of the chunker advances by `chunk_size // 2 + 2 - overlap` exactly when the size is at least 3
  (`AdvanceIff`), and no text is lost exactly when the size is positive (`LosesNothingIff`).
- A cache list stays within its limit exactly when the limit is positive: trimming to `0 .. -1` keeps all
  (`BoundedIff`).
- The feed reports no change between the page's own snapshot and the first poll, so a page is as fresh as
  the last poll exactly when something was reported or its snapshot was not older than the first poll
  (`CaughtUpIff`; a run that fails: `StalePage`).

## Model

| member | source | states |
|---|---|---|
| BookingService.Database.Create | apps/api/app/appointments/service.py:174-305 | the creation transaction, statement by statement, either commits the tables that `Create` describes or answers one of its codes and leaves every table unchanged; the invariant is kept |
| BookingService.Database.CreateAfterSweep | apps/api/app/appointments/service.py:198-290 | exception lookup, slot selection and validation, then the inserts, with the code of the first failing check |
| BookingService.Database.InsertAppointment | apps/api/app/appointments/service.py:224-290 | the unique indexes guard the insert; on success the row, the three slots, the spent exception, the company and both outbox events are written |
| BookingService.Database.LockOpenException | apps/api/app/appointments/service.py:198-222 | an exception is spent only for a company that is already booked, and it is a usable one of this account whenever there is one |
| BookingService.Database.Update | apps/api/app/appointments/service.py:457-486 | ownership, state and version checks, then a move, a patch or nothing; a refusal undoes even the sweep |
| BookingService.Database.MoveAppointment | apps/api/app/appointments/service.py:561-629 | new slots are validated before the old ones are released; old released, new booked, version raised, reminder replaced |
| BookingService.Database.WriteMove | apps/api/app/appointments/service.py:580-629 | the writes of a move, which succeed exactly when neither versioned outbox key exists yet |
| BookingService.Database.PatchAppointment | apps/api/app/appointments/service.py:631-715 | new details and a higher version with one details event, nothing else |
| BookingService.Database.Cancel | apps/api/app/appointments/service.py:488-528 | cancelling twice is accepted without effect; a completed appointment is refused; otherwise slots are released and the pending reminder withdrawn |
| BookingService.Database.ForceCancel | apps/api/app/appointments/service.py:862-919 | as a cancellation, but the slots become owner-locked |
| BookingService.Database.AdminReschedule | apps/api/app/appointments/service.py:955-990 | moves any active appointment without a sweep, with the same all-or-nothing answer, for any list of ids: an unknown one selects no row and a repeated one its row once |
| BookingService.Database.EndAppointment | apps/api/app/appointments/service.py:505-528 | the writes shared by both cancellations |
| BookingService.Database.ReleaseSlots | apps/api/app/appointments/service.py:717-740 | the loop frees exactly the appointment's slots, each with the status of some covering override, and touches no other |
| BookingService.Database.RematerializeWindow | apps/api/app/appointments/service.py:1270-1306 | the loop gives exactly the free slots that meet the window the status the overrides ask for |
| BookingService.Database.CreateOverride | apps/api/app/appointments/service.py:1002-1052 | an empty range is refused; otherwise the override is stored and its window recomputed |
| BookingService.Database.UpdateOverride | apps/api/app/appointments/service.py:1054-1114 | the old and the new window are recomputed together |
| BookingService.Database.DeleteOverride | apps/api/app/appointments/service.py:1116-1138 | the deleted override's window is recomputed |
| BookingService.Database.CreateCompanyException | apps/api/app/appointments/service.py:1140-1202 | one open exception for an account and a company at a time |
| BookingService.Database.CompleteExpired | apps/api/app/appointments/lifecycle.py:11-45 | each appointment of the scope that is active and over becomes completed one version later, each of these gets one completion event and loses its pending reminder, and every other row and event is as it was |
| BookingService.Database.SweepExpired | apps/api/app/appointments/service.py:436-442 | the sweep that the listings run before they read keeps the invariant |
| BookingService.Database.MaterializeSlots | apps/api/app/appointments/materialize_slots.py:76-150 | the day and slot loops upsert the whole calendar window, or leave nothing behind |
| BookingService.Database.UpsertSlot | apps/api/app/appointments/materialize_slots.py:121-148 | the row with this start afterwards has the status asked for, or is the booked or owner-locked one as it was; a new id appears only if no row had the start, a clash of ids fails, and every other slot is as it was |
| BookingTheorems.NextSound | apps/api/app/appointments/service.py:174-305 | every transaction with every input keeps the whole invariant, and only advances slots, appointments and events |
| BookingTheorems.RunKeepsInv | apps/api/app/appointments/service.py:174-305 | the invariant, reminders included, holds after any number of transactions from the empty database |
| BookingTheorems.RunAdvances | apps/api/app/appointments/service.py:561-629 | between any two moments of a run versions do not fall, equal versions mean equal rows, terminal appointments are final |
| BookingTheorems.NeverDoubleBooked | apps/api/app/appointments/service.py:307-320 | in every reachable state two live appointments never overlap in time |
| BookingTheorems.SlotOwnership | apps/api/app/appointments/service.py:174-305 | a slot is booked exactly when it names an appointment, which is live; a live one owns exactly three consecutive slots of one local day tiling its 90 minutes, a cancelled one none |
| BookingTheorems.VersionFixesSlot | apps/api/app/appointments/service.py:717-740 | two sightings of a slot with one version are the same row |
| BookingTheorems.OneActive | apps/api/migrations/versions/0002_booking_schema.py:107-120 | at most one active appointment for an account, and for a company without an exception |
| BookingTheorems.ConsumedIffNamedOnce | apps/api/app/appointments/service.py:211-290 | an exception is consumed exactly when one appointment, and only one, names it |
| BookingTheorems.RemindersMatch | apps/api/app/appointments/service.py:359-398 | every active appointment has exactly one pending reminder, ten minutes before its start; all others have none |
| BookingTheorems.ValidateIff | apps/api/app/appointments/service.py:307-320 | a list of ids passes the checks exactly when the existing ones among them are three available slots in a row on one local day |
| BookingTheorems.CreateCommitsIff | apps/api/app/appointments/service.py:174-305 | a creation commits exactly when the slots can be taken, the account has nothing active, and the company is free or a usable exception is there |
| BookingTheorems.OnlyIdClashes | apps/api/migrations/versions/0003_outbox_audit_schema.py:45-54 | no outbox insert ever conflicts: an internal error can only be a clash of an id the request brought |
| BookingProofs.CreateSound | apps/api/app/appointments/service.py:174-305 | a creation keeps the invariant, commits or not |
| BookingProofs.UpdateSound | apps/api/app/appointments/service.py:457-486 | an update keeps the invariant |
| BookingProofs.CancelSound | apps/api/app/appointments/service.py:488-528 | a cancellation keeps the invariant |
| BookingProofs.ForceCancelSound | apps/api/app/appointments/service.py:862-919 | a forced cancellation keeps the invariant |
| BookingProofs.AdminRescheduleSound | apps/api/app/appointments/service.py:955-990 | an administrator's move keeps the invariant |
| BookingProofs.SweepSound | apps/api/app/appointments/lifecycle.py:11-45 | the completion sweep keeps the invariant; completed appointments keep their slots |
| BookingProofs.RematerializeSound | apps/api/app/appointments/service.py:1270-1306 | recomputing a window keeps the invariant and no owned slot changes |
| BookingProofs.MaterializeSound | apps/api/app/appointments/materialize_slots.py:76-150 | materialisation keeps the invariant |
| BookingAnswers.CreateAnswers | apps/api/app/appointments/service.py:174-320 | slots that cannot be booked are refused first, as locked if one of them is, else as taken; then a creation commits exactly when the id is new, the account has no running appointment and the company has none without an exception or the account may spend one, and otherwise every violated rule, and no other code, may be reported |
| BookingAnswers.CreateLeft | apps/api/app/appointments/service.py:224-305 | a commit adds the row with the details sent, books the three slots, spends the lowest usable exception if the company was taken, notes the company and writes the two events, on top of what the sweep leaves |
| BookingAnswers.UpdateAnswers | apps/api/app/appointments/service.py:457-486 | unknown, somebody else's, not running, another version: each its own code, in this order; otherwise new slots move the appointment exactly when they can be booked, details are patched with one event, and nothing asked changes nothing |
| BookingAnswers.AdminRescheduleAnswers | apps/api/app/appointments/service.py:955-990 | the same for the administrator, who needs neither the ownership nor a version |
| BookingAnswers.CancelAnswers | apps/api/app/appointments/service.py:488-528 | only the owner cancels; again is accepted, after the end is refused; otherwise the row, the reminders, the event and each owned slot change as stated and nothing else does |
| BookingAnswers.ForceCancelAnswers | apps/api/app/appointments/service.py:862-919 | the same without an owner, and the slots end owner-locked |
| BookingAnswers.SweepAnswers | apps/api/app/appointments/lifecycle.py:11-45 | exactly the appointments of the scope that are active and over are completed, at their end, with one event each and their pending reminders withdrawn |
| BookingAnswers.CreateOverrideAnswers | apps/api/app/appointments/service.py:1002-1052 | an empty range is refused; otherwise exactly the free slots that meet the window get a new version and the status the overrides ask for |
| BookingAnswers.UpdateOverrideAnswers | apps/api/app/appointments/service.py:1054-1114 | the same for the hull of the old and the new window; an unknown override is refused |
| BookingAnswers.DeleteOverrideAnswers | apps/api/app/appointments/service.py:1116-1138 | the same for the window of the deleted one |
| BookingAnswers.CreateExceptionAnswers | apps/api/app/appointments/service.py:1140-1202 | an expiry that is not ahead is refused; an open exception for account and company, or a clash of ids, likewise; otherwise it is added as sent |
| BookingAnswers.MaterializeAnswers | apps/api/app/appointments/materialize_slots.py:76-150 | a number of weeks out of range is refused, a failure means a clash of ids, and a commit has swept |
| BookingAnswers.WeekStart | apps/api/app/appointments/materialize_slots.py:76-120 | the weeks start on the Monday of the day given |
| BookingAnswers.OfferedIff | apps/api/app/appointments/materialize_slots.py:30-60 | the half hours of a day run from 9:30 to 22:00 local time, and the calendar offers exactly those of later workdays outside the two meal times |
| AvailabilityTheorems.CreateOverrideKeepsUpToDate | apps/api/app/appointments/service.py:1002-1052 | after the edit every free slot is as a full recompute would leave it, exactly when the free slots outside the window were before |
| AvailabilityTheorems.UpdateOverrideKeepsUpToDate | apps/api/app/appointments/service.py:1054-1114 | the same for the span of the old and the new window |
| AvailabilityTheorems.DeleteOverrideKeepsUpToDate | apps/api/app/appointments/service.py:1116-1138 | the same for a deleted override |
| AvailabilityTheorems.ReleaseUpToDateIff | apps/api/app/appointments/service.py:717-740 | whatever the unordered query returns, the released slots are as the overrides ask exactly when none of them has opposite covering overrides |
| AvailabilityTheorems.ReleaseKeepsUpToDateIff | apps/api/app/appointments/service.py:717-740 | and the whole table is then as the overrides ask exactly when the slots that were not released were so, too |
| ReachableStates.ContestedRelease | apps/api/app/appointments/service.py:717-740 | a run of five transactions in which a cancellation makes a slot available that an override forbids, although everything was up to date before |
| AvailabilityTheorems.CancelUndoesCreateIff | apps/api/app/appointments/service.py:488-528 | cancelling a booking just made restores every slot but for two version steps of the three, whatever the query returns, exactly when those three were as the overrides ask |
| AvailabilityTheorems.CameAndWentIff | apps/api/app/appointments/service.py:1270-1306 | adding an override and deleting it again restores the status of every slot exactly when each free slot in its window had the status the other overrides ask for |
| AvailabilityTheorems.EditKeepsCalendarIff | apps/api/app/appointments/service.py:1270-1306 | after an override is created, changed or deleted, a free slot in the recomputed window has the calendar's status under the overrides there now are exactly when one of them covers it or the calendar itself makes it available |
| AvailabilityTheorems.CalendarSlotKeptIff | apps/api/app/appointments/service.py:1270-1306 | the same for an override that is added and deleted again |
| AvailabilityTheorems.HolidayForgotten | apps/api/app/appointments/service.py:1270-1306 | for every holiday of every materialised window there is a run in which an override comes and goes and leaves the half hour available |
| AvailabilityTheorems.HolidayOpened | apps/api/app/appointments/service.py:1270-1306 | for every holiday of every materialised window there is a run in which one override that forbids a part of the half hour makes it available |
| AvailabilityTheorems.WindowOverridesSuffice | apps/api/app/appointments/materialize_slots.py:61-74 | reading only the overrides that meet the window gives every slot in it the same status |
| AvailabilityTheorems.MaterializeSettles | apps/api/app/appointments/materialize_slots.py:111-147 | every calendar slot of the weeks is there with the calendar's status unless pinned, and booked and owner-locked slots are untouched |
| AvailabilityTheorems.MaterializeIdempotent | apps/api/app/appointments/materialize_slots.py:76-150 | a second run with the same inputs changes nothing at all |
| Outbox.ClaimBatch | apps/api/app/notifications/worker.py:65-78 | claims up to twenty due events not locked by others, oldest first, and none is left out while there is room |
| Outbox.Mark | apps/api/app/notifications/worker.py:103-108 | sets one event's status and nothing else |
| Outbox.RequeueFailed | apps/api/app/notifications/worker.py:81-88 | the failed events younger than the retry window are pending again, and every other event is as it was |
| Outbox.StepKeeps | apps/api/app/notifications/worker.py:410-462 | each step of a worker or a booking keeps the joint invariant and the absorbing states |
| Outbox.AtMostOneOwner | apps/api/app/notifications/worker.py:65-78 | with any number of workers an event is owed a mark by at most one, once |
| Outbox.BookingSoundUnderWorkers | apps/api/app/notifications/worker.py:410-462 | the booking invariant holds throughout, whatever the workers do |
| Outbox.StatusAbsorbs | apps/api/app/notifications/worker.py:424-460 | withdrawn is final, and processed is final for every type but the completion event |
| Outbox.OrphanStays | apps/api/app/notifications/worker.py:65-88 | an event that no worker owes a mark stays processing under every later step |
| Outbox.StepAttends | apps/api/app/notifications/worker.py:410-462 | no step but a crash leaves a processing event that no worker owes its mark |
| Outbox.CrashOrphansIff | apps/api/app/notifications/worker.py:410-462 | a crash leaves none exactly when the worker owed no more than last marks of completion events |
| Outbox.ExactlyOneOwner | apps/api/app/notifications/worker.py:65-78 | in a run without another crash each processing event is owed its mark by exactly one worker, once |
| ReminderTheorems.FailedReminderOutlivesCancel | apps/api/app/notifications/worker.py:81-88 | a failed reminder survives the cancellation of its appointment and is pending again after a requeue |
| ReachableStates.ReminderAfterCancel | apps/api/app/notifications/worker.py:81-88 | a run of bookings and worker steps that ends with a pending reminder of a cancelled appointment |
| ReachableStates.ClaimedReminderAfterCancel | apps/api/app/notifications/worker.py:424-460 | the same with no failed reminder at the cancellation: a worker holds it then, fails afterwards, and the first requeue sends it back |
| ReminderTheorems.NextQuiet | apps/api/app/appointments/service.py:488-528 | no transaction gives an ended appointment a pending reminder, and one that ends an appointment leaves it none |
| ReminderTheorems.SilentIff | apps/api/app/notifications/worker.py:410-462 | an ended appointment has no pending reminder, now or after anything the bookings and workers can do with requeues from a given moment on, exactly when each of its reminders is withdrawn, delivered or an orphan, or too old for those requeues and not pending |
| ReminderTheorems.SilentIffSettled | apps/api/app/notifications/worker.py:410-462 | with requeues at any moment: exactly when each of its reminders is withdrawn, delivered or an orphan |
| ReminderTheorems.EndingSilencesIff | apps/api/app/notifications/worker.py:81-88 | whichever transaction cancels or completes an appointment, its reminders are silent for good exactly when, before the call, none young enough for a requeue had failed or was owed a mark by a worker |
| ReminderTheorems.CancelSilencesForGoodIff | apps/api/app/appointments/service.py:488-528 | in particular the owner's cancellation, which commits |
| ReminderTheorems.StillInRunsIff | apps/api/app/notifications/worker.py:410-462 | at any moment of any run from the empty schema: no run that goes on from there ever has a pending reminder of the ended appointment exactly under the condition of `SilentIff` |
| ReminderTheorems.NeverEarly | apps/api/app/notifications/worker.py:65-78 | over every run, an event that is in process, delivered or failed was claimed, at its scheduled moment or later |
| RowLocks.StepKeeps | apps/api/app/appointments/service.py:198-290 | every lock, check, write and commit step of any interleaving keeps the lock invariant |
| RowLocks.SoundUnderInterleaving | apps/api/app/appointments/service.py:198-290 | after every step of any number of interleaved creations, moves and cancellations the committed tables satisfy the booking invariant |
| RowLocks.SeenStays | apps/api/app/appointments/service.py:307-320 | a locked row stays as it was validated until its holder's own commit |
| RowLocks.BookedOnlyWhenAvailable | apps/api/app/appointments/service.py:561-629 | a slot changes hands only from being free and available, so between two bookings it was released |
| LockAnswers.CreatingCommits | apps/api/app/appointments/service.py:198-290 | at its commit a creation still finds three available slots in a row and nothing active of the account or, without an exception, of the company, and it writes what a creation writes |
| LockAnswers.MovingCommits | apps/api/app/appointments/service.py:561-629 | a move writes what a move writes, and is one atomic move at its commit exactly if the statuses found when the old slots were released still fit the overrides |
| LockAnswers.CancellingCommits | apps/api/app/appointments/service.py:488-528 | the same for a cancellation; a forced one locks the slots |
| LockAnswers.CreationCommits | apps/api/app/appointments/service.py:198-290 | a creation whose locks nobody holds reaches its commit whenever the single step commits, and leaves the same tables |
| LockAnswers.MoveCommits | apps/api/app/appointments/service.py:561-629 | so does a move |
| LockAnswers.CancellationCommits | apps/api/app/appointments/service.py:717-740 | so does a cancellation of an active appointment, forced or not |
| LockAnswers.OverrideMisses | apps/api/app/appointments/service.py:1270-1306 | an override that commits between the release of a slot and the commit of the cancellation leaves the slot free against it |
| ReachableStates.StaleRelease | apps/api/app/appointments/service.py:717-740 | some run of lock steps from the empty schema ends with a slot available that the only covering override forbids |
| WaitOrder.NoCycle | apps/api/app/appointments/service.py:198-290 | transactions that take company, exception, slots by start and id, then the account key, cannot wait in a circle |
| WaitOrder.CreationsNeverDeadlock | apps/api/app/appointments/service.py:198-290 | no state of a run whose requests are all creations has a wait cycle of any length |
| CircuitBreaker.CircuitBreaker.BeforeCall | apps/api/app/aiqa/resilience.py:44-60 | the local breaker's check does the specified step |
| CircuitBreaker.CircuitBreaker.RecordSuccess | apps/api/app/aiqa/resilience.py:62-70 | the local breaker's success does the specified step |
| CircuitBreaker.CircuitBreaker.RecordFailure | apps/api/app/aiqa/resilience.py:72-86 | the local breaker's failure does the specified step |
| CircuitBreaker.RedisCircuitBreaker.BeforeCall | apps/api/app/aiqa/resilience.py:93-187 | runs the script on the unexpired key, or falls back to the local breaker, and leaves the other one alone |
| CircuitBreaker.RedisCircuitBreaker.RecordFailure | apps/api/app/aiqa/resilience.py:107-204 | the same for a failure |
| CircuitBreaker.RedisCircuitBreaker.RecordSuccess | apps/api/app/aiqa/resilience.py:125-214 | deletes the key, and closes the fallback too |
| CircuitBreaker.SharedRefinesLocalIff | apps/api/app/aiqa/resilience.py:93-132 | without expiry any number of instances answer every call sequence as one local breaker, exactly when the recovery time is at least a millisecond |
| CircuitBreaker.OneProbe | apps/api/app/aiqa/resilience.py:44-60 | from an open breaker at most one call is admitted before the next record |
| CircuitBreaker.HalfOpenRefuses | apps/api/app/aiqa/resilience.py:44-60 | the local half-open breaker refuses every call until something is recorded, for good if nothing is |
| CircuitBreaker.SharedHalfOpenRefuses | apps/api/app/aiqa/resilience.py:93-105 | the shared half-open hash with nothing recorded admits a call exactly from the expiry of its key on |
| CircuitBreaker.ProbeLeavesKey | apps/api/app/aiqa/resilience.py:93-105 | an admitted probe leaves a half-open hash that expires one time-to-live later, at least four recovery times |
| CircuitBreaker.OpenUntilRecovery | apps/api/app/aiqa/resilience.py:107-160 | the key outlives four recovery times, so until recovery nothing expires, changes or is admitted |
| CircuitBreaker.NoEarlyAdmission | apps/api/app/aiqa/resilience.py:93-160 | with expiry no call is admitted before opened_at plus recovery unless a success was recorded |
| CircuitBreaker.OpeningLeavesKey | apps/api/app/aiqa/resilience.py:107-123 | whenever the circuit opens the hash is the one those two theorems start from |
| CircuitBreaker.OpenKeepsOut | apps/api/app/aiqa/resilience.py:93-160 | over a whole run from no key, with expiry: after a reply that the circuit opened, and no success in between, an admitted call lies at least the recovery time later |
| BreakerAnswers.LocalAnswers | apps/api/app/aiqa/resilience.py:44-82 | every reply of every run from a fresh breaker, told from the calls and the replies before it: it opens exactly at the failure that is the threshold-th since the last success or that follows a probe, and while open it admits a call exactly if the recovery time is over and none was admitted since |
| BreakerAnswers.SharedAnswers | apps/api/app/aiqa/resilience.py:85-160 | the same for any number of instances on one expiring hash, with the calls counted from the last one that found the key expired |
| BreakerAnswers.ExpiryNeedsSilence | apps/api/app/aiqa/resilience.py:93-160 | which happens only a time-to-live after some earlier call |
| BreakerAnswers.WhatIsWritten | apps/api/app/aiqa/resilience.py:93-160 | exactly the failures that count, the probes and the successes that find a key change the hash |
| Gateway.BackoffSchedule | apps/api/app/aiqa/gateway.py:135-141 | waits grow from 0.3 s and reach their ceiling of 3 s with the fifth |
| Gateway.BackoffIs | apps/api/app/aiqa/gateway.py:135-141 | 0.3, 0.6, 1.2, 2.4 and then 3 seconds |
| Gateway.AnswerWithRetries | apps/api/app/aiqa/gateway.py:164-195 | the caller sees the chunks and the result of one single attempt; earlier ones were transient and silent; there are at most max_retries of them |
| Gateway.FirstNotSilent | apps/api/app/aiqa/gateway.py:164-195 | the attempt that is seen is the first that was not a transient failure before any chunk, or the last allowed one, and its end decides the result |
| Gateway.Answer | apps/api/app/aiqa/gateway.py:143-162 | an admitted call that ends normally or with a gateway error makes exactly one record, any other none; a refused call makes no attempt |
| Gateway.ProbeReports | apps/api/app/aiqa/gateway.py:143-162 | a probe leaves the breaker closed, open again, or half-open exactly if it completed, failed or escaped |
| RateLimiter.AnswerRateLimiter.Consume | apps/api/app/aiqa/rate_limit.py:35-53 | one request cuts the log to the window and is appended or refused |
| RateLimiter.LogInvariant | apps/api/app/aiqa/rate_limit.py:35-53 | a bucket is always the tail of its key's accepted requests that can still count |
| RateLimiter.AcceptedIff | apps/api/app/aiqa/rate_limit.py:35-53 | a request is accepted exactly when fewer than max_requests accepted ones of its key lie within the window; otherwise the wait ends in the first whole second after the oldest of the last max_requests has left it |
| RateLimiter.BudgetHolds | apps/api/app/aiqa/rate_limit.py:35-53 | any max_requests + 1 consecutive accepted requests of a key span at least the window |
| RateLimiter.RetryIsAccepted | apps/api/app/aiqa/rate_limit.py:44-53 | a refused caller that waits at least as long as told is accepted, whatever requests of other keys come in between |
| RateLimiter.RetryClearsOldest | apps/api/app/aiqa/rate_limit.py:44-53 | the reported wait is at least a second, long enough for the oldest request to leave, and at most a second too long |
| SemanticCache.SemanticAnswerCache.Lookup | apps/api/app/aiqa/semantic_cache.py:63-89 | a hit is the first of the most similar comparable entries at or above the threshold; none means there is none |
| SemanticCache.SemanticAnswerCache.Put | apps/api/app/aiqa/semantic_cache.py:91-117 | pushes, trims and refreshes both expiries in one transaction |
| SemanticCache.SemanticAnswerCache.InvalidateAll | apps/api/app/aiqa/semantic_cache.py:119-127 | removes the registry and what it names |
| SemanticCache.RunKeeps | apps/api/app/aiqa/semantic_cache.py:91-117 | over every run each live list is named by a registry that outlives it |
| SemanticCache.BoundedIff | apps/api/app/aiqa/semantic_cache.py:111-113 | over all runs lists stay within max_entries exactly when it is positive |
| SemanticCache.OnlyPuts | apps/api/app/aiqa/semantic_cache.py:91-117 | whatever can be read was put into that namespace |
| SemanticCache.ReadsExactly | apps/api/app/aiqa/semantic_cache.py:63-127 | over every run, what can be read of a namespace is exactly its puts since the last invalidation and the last expiry, newest first, cut to the limit if that is positive |
| SemanticCache.EntryStays | apps/api/app/aiqa/semantic_cache.py:91-127 | so an entry stays until an invalidation, an expiry or as many later puts to its namespace as the limit |
| SemanticCache.OnlyLaterPuts | apps/api/app/aiqa/semantic_cache.py:91-127 | nothing put before the last invalidation can be read after it |
| SemanticCache.HitIsCurrent | apps/api/app/aiqa/semantic_cache.py:63-127 | a hit was put into its own namespace after the last invalidation and meets the threshold |
| SemanticCache.InvalidationEmptiesIff | apps/api/app/aiqa/semantic_cache.py:119-127 | an invalidation leaves nothing to be found exactly when the live registry names every live list |
| Ranking.SortPositions | apps/api/app/aiqa/bm25.py:71-72 | the stable descending order of all positions |
| Ranking.Top | apps/api/app/aiqa/bm25.py:71-72 | the first k of a score table, best first and, among equals, first inserted first |
| Ranking.TopIsUnique | apps/api/app/aiqa/bm25.py:71-72 | a table and a cut allow only one output, ties included |
| Ranking.TopFacts | apps/api/app/aiqa/bm25.py:71-72 | distinct ids with their own scores, descending, and nothing left out scores higher |
| RankFusion.Fuse | apps/api/app/aiqa/bm25.py:75-87 | the output is the stable descending top of the table that holds every id of any list with the sum of 1/(k + rank) over all its occurrences |
| RankFusion.FusionFacts | apps/api/app/aiqa/bm25.py:75-87 | distinct ids of the lists with exactly that sum, descending; nothing left out scores higher, and nothing is left out while there is room |
| RankFusion.FusedPositiveIff | apps/api/app/aiqa/bm25.py:75-87 | an id has a score exactly when some list has it |
| RankFusion.ShareOfRank | apps/api/app/aiqa/bm25.py:75-87 | an id that stands once in a list gets 1/(k + rank) from it |
| RankFusion.Dominance | apps/api/app/aiqa/bm25.py:75-87 | an id above another in every list that has the other scores strictly higher |
| RankFusion.DominanceInOutput | apps/api/app/aiqa/bm25.py:75-87 | and comes out before it, whatever the cut |
| RankFusion.FusionIsUnique | apps/api/app/aiqa/bm25.py:75-87 | the lists alone determine the output, ties included |
| Bm25.BM25Index.constructor | apps/api/app/aiqa/bm25.py:34-53 | lengths, average, postings and document frequencies agree with the documents |
| Bm25.PostDocument | apps/api/app/aiqa/bm25.py:44-51 | the inner loop enters each distinct token once with its count and touches no other token |
| Bm25.PostingFacts | apps/api/app/aiqa/bm25.py:44-53 | a token's postings are the ids of the documents that have it, each with the count of the last such document, and its frequency is their number |
| Bm25.BM25Index.Search | apps/api/app/aiqa/bm25.py:55-72 | the result is a best top_k of the matching ids by scores computed directly over the documents, for any documents, repeated ids included, and any order of the query's tokens; no division is by zero |
| Bm25.BM25Index.AddToken | apps/api/app/aiqa/bm25.py:61-70 | one token adds its share to exactly the ids that have it |
| Bm25.WeightIsFormula | apps/api/app/aiqa/bm25.py:61-70 | where ids are distinct, that share is the BM25 formula of the one document, its count, its length and the number of documents with the token |
| Bm25.GainIs | apps/api/app/aiqa/bm25.py:61-70 | the formula in full |
| Bm25.ScoreWithout | apps/api/app/aiqa/bm25.py:61-70 | the sum over the token set does not depend on the order |
| Bm25.ScoresAreDetermined | apps/api/app/aiqa/bm25.py:55-72 | two results of one search have the same scores, position by position |
| Bm25.PositiveIffMatches | apps/api/app/aiqa/bm25.py:61-70 | an id scores above zero exactly when a document that bears it shares a token with the query |
| Bm25.TokenlessIsEmpty | apps/api/app/aiqa/bm25.py:55-72 | documents without tokens give an empty answer although their average length is zero |
| Chunking.ChunkText | apps/api/app/aiqa/chunking.py:15-49 | the loop terminates and yields the chunks of the specification, early returns included |
| Chunking.ChunkLong | apps/api/app/aiqa/chunking.py:24-49 | the window loop, numbering only what is not blank |
| Chunking.ChunksAnswer | apps/api/app/aiqa/chunking.py:15-49 | a blank text has no chunk, one that fits is a chunk as it is, and of any other the chunks are its windows in order, cut by that rule and overlapping as asked, each without white space at its ends and the blank ones left out |
| Chunking.WindowEnd | apps/api/app/aiqa/chunking.py:28-41 | where one window is cut |
| Chunking.BoundaryIsLastBreak | apps/api/app/aiqa/chunking.py:32-39 | the maximum of the six searches is the last sentence or paragraph end of the window, or -1 |
| Chunking.CutEndAnswers | apps/api/app/aiqa/chunking.py:28-41 | a window that does not reach the end of the text ends right after its last break if one lies beyond the middle, else it is exactly chunk_size long |
| Chunking.WindowsCover | apps/api/app/aiqa/chunking.py:26-48 | starts rise strictly, there is no gap, windows are non-empty and at most chunk_size long, and the last one ends the text |
| Chunking.NothingLost | apps/api/app/aiqa/chunking.py:15-49 | every character that is not white space is in some chunk |
| Chunking.LosesNothingIff | apps/api/app/aiqa/chunking.py:15-49 | which holds for all texts exactly when chunk_size is positive |
| Chunking.ChunkSizes | apps/api/app/aiqa/chunking.py:15-49 | chunks are numbered 1..n, none is empty and none longer than chunk_size |
| Chunking.AdvanceIff | apps/api/app/aiqa/chunking.py:38-48 | with overlap at most half the size each step advances by chunk_size//2 + 2 - overlap exactly when the size is at least 3 |
| Chunking.ChunkCount | apps/api/app/aiqa/chunking.py:26-48 | which bounds the number of chunks |
| SlotFeed.EventStream | apps/api/app/appointments/sse.py:53-86 | frames are numbered from the ready frame without gaps; the changes are exactly the polled items whose slot was last polled with another status or version; one heartbeat per due round |
| SlotFeed.ReportSlots | apps/api/app/appointments/sse.py:68-80 | the loop over one round's slots |
| SlotFeed.ReadsAreOrdered | apps/api/app/appointments/service.py:129-162 | items read from a booking run have versions that never fall and that determine all a viewer sees |
| SlotFeed.NewsIff | apps/api/app/appointments/sse.py:68-80 | an item is reported exactly when its slot was polled before, always with a lower version |
| SlotFeed.FeedRises | apps/api/app/appointments/sse.py:68-80 | reported versions of one slot rise strictly |
| SlotFeed.MergeReachesNewest | apps/web/main.tsx:718-724 | the merged view of a slot is the newest of what it had and what it was told |
| SlotFeed.MergeConverges | apps/web/main.tsx:718-724 | the same events in any order and with any repetition give the same view |
| SlotFeed.BrowsersConverge | apps/web/main.tsx:718-724 | and that is so for whatever was seen at any moments of a booking run |
| SlotFeed.VisibleIff | apps/api/app/appointments/service.py:129-162 | in every state of a run a viewer is shown the row as it is, as its own exactly when one of its appointments that is not cancelled holds that time, and as another's exactly when another's does |
| SlotFeed.CaughtUpIff | apps/api/app/appointments/sse.py:68-80 | a page is as fresh as the last poll exactly when something was reported or its own snapshot was as fresh as the first poll |
| ReachableStates.StalePage | apps/api/app/appointments/sse.py:68-80 | a run in which the page shows a booked slot as available and the feed reports nothing |
| SseParser.ParseBlock | apps/web/main.tsx:217-227 | the line loop delivers the block's last event name and its joined data, or throws |
| SseParser.BlockAnswers | apps/web/main.tsx:217-227 | a block of any lines delivers one event if it has a data line: under the name of its last event line, or as a message, with the trimmed data lines joined by line breaks |
| SseParser.ReadStream | apps/web/main.tsx:207-231 | reading chunk by chunk delivers what the whole text holds |
| SseParser.DrainMore | apps/web/main.tsx:212-228 | more text continues from the buffer |
| SseParser.CutsDoNotMatter | apps/web/main.tsx:207-231 | every way of cutting the stream delivers the same events and fails in the same place |
| SseParser.PrintedIsDelivered | apps/api/app/aiqa/sse.py:25-31 | printed frames are delivered in order up to the first payload that does not parse |
| SseParser.RoundTrip | apps/api/app/aiqa/sse.py:25-31 | a printed stream, cut anyhow, is read back as the list of names and data that was printed |
| AnswerStream.StreamAnswer | apps/api/app/aiqa/service.py:929-1660 | the generator sends, runs, stores and caches exactly what the script of the inputs says |
| StreamAnswers.StreamTells | apps/api/app/aiqa/service.py:929-1660 | told from the turns of the model: which tools run with what result, whether a fixed reply, the results of tools, a cached answer, a refusal or a grounded answer follows, and with it every frame but the traces of the phases, the stored messages, the usage and the cache entry |
| StreamAnswers.CardsExactly | apps/api/app/aiqa/service.py:1550-1660 | a stream that puts the results of tools into words sends one card for each booking, cancellation and reschedule that ran, in order, with its outcome; no other stream sends any |
| StreamAnswers.TracesAgree | apps/api/app/aiqa/service.py:951-976 | the last trace is a broken routing or generation before an error, a blocked result before an off-topic completion, and a completed result before any other |
| AnswerStream.Writer.SendTrace | apps/api/app/aiqa/service.py:951-976 | both counters advance and the frame carries them |
| AnswerStream.Writer.Relay | apps/api/app/aiqa/service.py:1439-1446 | deltas are passed on in order, their text joined and the usage added up |
| AnswerStream.RunTools | apps/api/app/aiqa/service.py:1177-1253 | the loop over at most four turns of the model |
| AnswerStream.AskModel | apps/api/app/aiqa/service.py:1178-1220 | the first tool call of a turn, the search and the refused tools apart |
| AnswerStream.SendFromKnowledge | apps/api/app/aiqa/service.py:1278-1548 | cache hit, refusal or grounded answer |
| AnswerStream.SendFromTools | apps/api/app/aiqa/service.py:1550-1660 | cards for the writing tools, then the explanation |
| AnswerStream.SearchCandidates | apps/api/app/aiqa/service.py:1662-1693 | both queries searched, static pages only where the knowledge base has nothing, each source kept once |
| AnswerStream.QuestionEvidenceKept | apps/api/app/aiqa/service.py:1662-1693 | whatever query the model chose, every source the question alone finds is kept, and none twice |
| AnswerStream.NumbersHaveNoGaps | apps/api/app/aiqa/service.py:951-976 | stream_seq is 1..n and the trace steps are exactly 1..m, rising |
| AnswerStream.StreamEndsOnce | apps/api/app/aiqa/service.py:929-1660 | the first frame is the started frame, and there is exactly one completed or error frame, the last |
| AnswerStream.ToolsAreBounded | apps/api/app/aiqa/service.py:755-785 | at most four tools run, each of them offered and not the search; without an account each answers forbidden |
| AnswerStream.GroundedIsCited | apps/api/app/aiqa/service.py:1341-1548 | a grounded completion is preceded by a citations frame that names a source, whose number is stored with the answer, unless the cache found an answer without one |
| AnswerStream.CacheCites | apps/api/app/aiqa/service.py:1479-1496 | which the cache never does when such streams filled it |
| AnswerStream.CachedIsGrounded | apps/api/app/aiqa/service.py:1479-1496 | only an answer with sources, to a caller without account and conversation, is cached, as it was streamed |
| AnswerStream.StoredIffCompleted | apps/api/app/aiqa/service.py:979-1000 | a conversation stores the question once and, exactly if the stream completed, an assistant message equal to the joined deltas |

## Left out

- Preview, confirmation tokens, the booking rate limiter, audit log rows and sync alerts: they come before a transaction or beside it and change none of the modelled tables.
- Encryption, fingerprints, password hashing and sessions: opaque values; cipher columns are one `details` value.
- Candidate deliveries, e-mail and Feishu calls of the worker: outcomes of a mark step; the deliveries table is not modelled.
- Liveness of the outbox and recovery of events whose worker crashed: the code has none.
- Failures of the worker's own mark statement: a mark step always succeeds.
- RowLocks.SoundUnderInterleaving: sweeps, override edits, new exceptions and materialisation are single steps that wait for the rows they change, and a creation or move at this grain does not sweep first, so the rows such a sweep locks inside the transaction are not modelled; `BookingTheorems` has the whole transactions. Ids of new slots are drawn afresh, so none that a running request names comes into being meanwhile.
- WaitOrder.CreationsNeverDeadlock: only creations; a reschedule locks its new slots before it writes its old ones, so it can wait in a circle with others.
- SemanticCache.SemanticAnswerCache.InvalidateAll: one atomic step, while the code sends several commands; expiry is at whole seconds.
- CircuitBreaker.SharedRefinesLocalIff: clocks and recovery times in whole milliseconds.
- Gateway.AnswerWithRetries: an attempt is the list of chunks it passes on and how it ends; how one upstream stream is split into deltas and tool calls is not modelled.
- Chunking.ChunkText: sizes and overlaps that are not negative.
- Ranking.Top: cuts that are not negative.
- AnswerStream.StreamAnswer: the labels, details and durations of trace frames, the prompts and the history; errors that the generator does not handle end it and are not inputs here.
- SlotFeed.EventStream: the rounds until the client disconnects; the connection ceiling of the registry is not modelled.
- SseParser.ReadStream: decoded text; the decoder's handling of bytes is not modelled, and a last frame without its blank line is dropped as the code drops it.
- Routers, role dispatch, configuration, statistics, metrics, rendering, evaluation and seed scripts: plumbing or single branches.

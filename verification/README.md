# Verified model of the AI live-streamer runtime

A Dafny model of the parts of the runtime whose correctness is not visible from one function:
the output scheduler, the recursive constraint validator, the activity manager and the
cancellation protocol around it, the confirmation of uncertain plans, the end of a stream,
the pacing of autonomous talk, and four bounded algorithms (spam window, comment ranking,
event pipeline, planned-activity queue). `dafny verify dfyconfig.toml` checks everything.

How it is laid out:

- `ConstraintSchema`, `ConstraintPaths`, `ConstraintValidator`, `ConstraintTheorems`: what a constraint schema
  means (a declarative predicate, the default-filled value, the exact sets of errors and
  defaults), the validator with its shared error list and defaults dict, proved to compute
  exactly those, the paths as the program spells them, and the laws: sound and complete,
  idempotent, defaults reversible.
- `OutputGate`, `OutputScheduler`, `SchedulerTheorems`: the priority monitor with an explicit
  wait set, any number of output units and plain actions interleaving over ordered locks, and
  safety, no overtaking, deadlock freedom, termination, and that every action of every group is
  executed once and in order, over all runs. Cancelling a task
  inside `__aenter__` is harmless exactly when no lock was taken yet; cancelling a unit that waits
  for the gate loses the gate as soon as its thread gets through, whatever the others do meanwhile.
- `Activities`, `ActivityManagement`, `ActivityTheorems`: the activity manager as pure
  operations and as a class, and what holds over every run with fresh ids.
- `PlannedQueue`, `CancellationProtocol`, `CancellationTheorems`, `CancellationThreads`: the
  queue of planned activities, and planner, executor and user-text steps as an interleaved
  step system over that queue and the manager.
- `BehaviorPlanning`, `PendingConfirmations`, `ConfirmationRoute`: planning from an analysis,
  validation, the confirmation book, and the behaviour route for turns that interleave wherever
  the route awaits, with other threads looking at the pending confirmation at any time.
- `StreamEnd`, `StreamEndCalls`, `StreamEndHistory`: normal end and emergency stop against an
  environment that answers anything, what they call and exactly when they succeed, and whole histories of arrivals, runs under the lock and departures, with an
  account of how each result came to be recorded.
- `TalkPacing`, `CommentSpam`, `CommentRanking`, `EventPipeline`, and the shared `StableSort` and `Options`.

Where the code does not do what one might expect, the model keeps the code and states exactly
when the property holds:

- An accepted value can be rejected after normalisation when `enum` lists containers; it is
  accepted again exactly when filling in defaults does not change an enum verdict.
- The dict of applied defaults is keyed by joined paths; an entry is lost exactly when two
  recorded paths are spelled alike, which takes an empty key or one with a dot.
- The result of a command is looked up only on entry, so a duplicate that already waits for the lock
  can call out although the result is recorded. After any history, a recorded normal end does so
  exactly when the session still has the expected version (the recorded run had resumed a session in
  `stop_failed` and failed in the closing talk), and a recorded emergency stop exactly when the
  session is in `stop_failed` at its version or was left in `stopping`, each if the other
  components agree.
- An emergency cancels only the latest normal end: one that arrived before it is hidden, even after
  the later one has gone.
- A closing talk whose caller is cancelled before it is recorded, spoken or not, can be started
  again. Once a talk was started, a normal end starts it again exactly when the session has come to
  `stop_failed` without a recorded talk and the command and the other components agree; a normal end
  cancelled in `closing` leaves no way for another normal end.
- A cancelled emergency stop leaves the session in a state from which no command is accepted.
- Cancelling the foreground activity does not resume pending ones.
- A comment that repeats a better ranked one is never chosen, not even when that one is itself excluded.
- Reading a pending confirmation and answering it are two steps of the manager. If another thread
  notices the expiry in between, the answer still counts: a yes runs the candidate, a non-final
  answer makes it pending again, and the book has one record too many. That happens exactly when
  somebody looks at or after the expiry between reading and answering; what had expired before it
  was read never runs, unless the clock is set back.
- Truncating the spam history never changes whether a message is flagged, but a duplicate is
  reported as a flood exactly when the kept end of the window has too few copies and the whole
  window enough. With a clock that steps back, old entries can hide behind newer ones.
- `complete_foreground_activity` takes no lock and has no caller; it is modelled as one step.

## Model

| member | source | states |
|---|---|---|
| ConstraintValidator.Validate | app/domain/activity_constraints.py:93-114 | valid exactly when there is no error; the normalised value, the spelled paths and codes reported, the warnings and the dict of applied defaults are those the schema's meaning gives |
| ConstraintValidator.ValidateValue | app/domain/activity_constraints.py:116-171 | for every value and schema: returns the filled value and appends exactly the errors and defaults of this subtree |
| ConstraintValidator.ValidateObject | app/domain/activity_constraints.py:173-214 | the three loops over required, declared and additional fields together give exactly the object's account |
| ConstraintValidator.FillRequired | app/domain/activity_constraints.py:186-193 | missing required fields get their default, recorded, or an error |
| ConstraintValidator.ValidateAdditional | app/domain/activity_constraints.py:204-214 | undeclared fields are rejected, validated or left, in any order |
| ConstraintTheorems.SoundAndComplete | app/domain/activity_constraints.py:116-214 | with enum on scalars only: no error exactly when the default-filled value conforms declaratively |
| ConstraintTheorems.AgreementExactly | app/domain/activity_constraints.py:137-139 | for all schemas: as soon as one of validator and declarative meaning accepts, they agree exactly when no enum verdict depends on the filling; if none does, they always agree |
| ConstraintTheorems.FillIdempotent | app/domain/activity_constraints.py:185-214 | normalising twice is normalising once |
| ConstraintTheorems.NormalisedIsNormal | app/domain/activity_constraints.py:103-114 | a normalised value normalises to itself and applies no default |
| ConstraintTheorems.AcceptedAgain | app/domain/activity_constraints.py:93-114 | an accepted value is accepted again in normalised form, exactly when enum verdicts survive the filling |
| ConstraintTheorems.DictEnumRejectedSecondTime | app/domain/activity_constraints.py:137-139 | a concrete schema with a container enum whose accepted value is rejected the second time |
| ConstraintTheorems.DefaultsRoundTrip | app/domain/activity_constraints.py:186-203 | erasing exactly the recorded default paths gives back the input, valid or not, nested defaults included |
| ConstraintTheorems.LegacySchemaMeaning | app/domain/activity_constraints.py:67-84 | an adapted legacy schema accepts exactly the listed names with the listed types |
| ConstraintTheorems.TypeMeaning | app/domain/activity_constraints.py:216-226 | what each type name accepts, unknown names nothing |
| ConstraintTheorems.LengthErrors | app/domain/activity_constraints.py:140-159 | the length and size errors of a value, by the numbers in the schema |
| ConstraintTheorems.RangeErrors | app/domain/activity_constraints.py:147-153 | the range errors of a number, by the numbers in the schema |
| ConstraintTheorems.EnumEquality | app/domain/activity_constraints.py:137-139 | membership in `enum` compares numbers across types and containers member by member |
| ConstraintPaths.EntriesKeptExactly | app/domain/activity_constraints.py:186-203 | the dict of applied defaults has an entry for every recorded default, unchanged, exactly when no two recorded paths are spelled alike |
| ConstraintPaths.PlainKeysLoseNothing | app/domain/activity_constraints.py:247-248 | for every value and schema: with non-empty keys without dots no entry is lost |
| ConstraintTheorems.DefaultLost | app/domain/activity_constraints.py:186-203 | a concrete schema and value for which two defaults are applied and the dict has one entry |
| ConstraintPaths.DottedInjective | app/domain/activity_constraints.py:247-248 | without dots in keys the joined string determines the names |
| OutputGate.EnterKeepsInv | app/runtime/action_scheduler.py:547-558 | entering keeps the monitor's invariant, lost wake-ups excluded, and waits exactly when busy or not first |
| OutputGate.TryKeepsInv | app/runtime/action_scheduler.py:554-557 | re-checking the loop condition keeps the invariant and lets exactly the head through |
| OutputGate.ReleaseKeepsInv | app/runtime/action_scheduler.py:560-563 | releasing keeps the invariant: the next head is awake |
| OutputGate.EnterGrants | app/runtime/action_scheduler.py:547-558 | an immediate grant means everybody waiting comes later in the order |
| OutputGate.PriorityOutputGate.AcquireEnter | app/runtime/action_scheduler.py:547-558 | the object's fields follow the model; granted exactly when the token no longer waits |
| OutputGate.PriorityOutputGate.AcquireRecheck | app/runtime/action_scheduler.py:554-558 | after a wake-up the gate is granted only to the head, before all that remain |
| OutputGate.PriorityOutputGate.ReleaseGate | app/runtime/action_scheduler.py:560-563 | the gate is free, nobody is parked, the head is runnable |
| OutputScheduler.LockOrderCorrect | app/runtime/action_scheduler.py:238-245 | locks are taken strictly increasing, each once, exactly the needed ones |
| OutputScheduler.SynchronizedOrderCorrect | app/runtime/action_scheduler.py:322-329 | the order of a unit is a stable rearrangement with the visual actions first |
| OutputScheduler.PreparedIsProper | app/runtime/action_scheduler.py:238-303 | a prepared task locks exactly what its actions need |
| OutputScheduler.BuildStatusMeaning | app/runtime/action_scheduler.py:454-513 | the reported status in terms of which actions completed, failed or were cancelled |
| SchedulerTheorems.StepKeepsInv | app/runtime/action_scheduler.py:235-371 | every step of every task keeps the gate and lock invariants |
| SchedulerTheorems.TasksExclude | app/runtime/action_scheduler.py:284-371 | executing tasks need disjoint resources, hold all of theirs, and at most one is an output unit |
| SchedulerTheorems.MutualExclusion | app/runtime/action_scheduler.py:255-285 | in every run at most one unit is between acquire and release |
| SchedulerTheorems.ExecutesUnderLock | app/runtime/action_scheduler.py:284-303 | an action executes only while its task holds each resource it requires |
| SchedulerTheorems.NoOvertaking | app/runtime/action_scheduler.py:547-558 | while a unit waits, grants go to higher priority or to equal priority with an earlier sequence number |
| SchedulerTheorems.TasksNotOvertaken | app/runtime/action_scheduler.py:255-258 | the same over every run, by the priorities submitted |
| SchedulerTheorems.ActionsExecuted | app/runtime/action_scheduler.py:294-320 | over every run, for each submitted task: what it executed is the beginning of its actions, each once, visual ones first and each kind in its order; a done task executed all |
| SchedulerTheorems.ExecutedUnderLock | app/runtime/action_scheduler.py:284-303 | every action executed in a run is executed by a task that holds all its resources right then |
| SchedulerTheorems.SpeakingGroupExecuted | app/runtime/action_scheduler.py:135-141 | a group that speaks is one unit of its priority, which executes all its actions once and in order |
| SchedulerTheorems.SilentGroupExecuted | app/runtime/action_scheduler.py:142-153 | each action of any other group is executed once, by a task of its own |
| SchedulerTheorems.DeadlockFree | app/runtime/action_scheduler.py:516-528 | while some task is unfinished, some task can step |
| SchedulerTheorems.StepDecreases | app/runtime/action_scheduler.py:235-371 | every step brings a measure down, fruitless wake-ups included |
| SchedulerTheorems.TasksFinish | app/runtime/action_scheduler.py:235-371 | runs are bounded, and a run can go on exactly as long as some task is unfinished |
| SchedulerTheorems.CancelHarmlessIff | app/runtime/action_scheduler.py:522-528 | a cancellation inside lock acquisition keeps the invariants exactly when no lock was taken |
| SchedulerTheorems.CancelLosesLocks | app/runtime/action_scheduler.py:522-524 | otherwise the locks taken stay held by the dead task |
| SchedulerTheorems.LostLockBlocks | app/runtime/action_scheduler.py:522-524 | a task that still needs a lost lock never executes, in any continuation |
| SchedulerTheorems.CancelLosesGate | app/runtime/action_scheduler.py:255-258 | a unit cancelled before its `try`: after any steps of the others, the next try of its thread takes the gate for nobody exactly when the gate is free and it is first |
| SchedulerTheorems.LostGateBlocks | app/runtime/action_scheduler.py:255-285 | after that no unit that is not through yet ever executes, in any continuation |
| ActivityManagement.ApplyKeepsInv | app/runtime/activity_manager.py:354-619 | every operation keeps: ACTIVE exactly the recorded foreground, ids consistent |
| ActivityManagement.BestMeaning | app/runtime/activity_manager.py:605-619 | the resumed activity is pending, of highest priority, the earliest on ties |
| ActivityManagement.FindBySourceMeaning | app/runtime/activity_manager.py:454-462 | finds an activity of the event exactly when there is one |
| ActivityManagement.ActivityManager.PrepareInput | app/runtime/activity_manager.py:354-387 | suspends the foreground and activates the conversation exactly for a new user text over interruptible autonomous talk; a known event's activity is returned |
| ActivityManagement.ActivityManager.Handle | app/runtime/activity_manager.py:398-452 | a known event changes nothing and its activity is returned; a new one's activity is created and arbitrated |
| ActivityManagement.ActivityManager.FindBySourceEvent | app/runtime/activity_manager.py:454-462 | finds the first activity of the event, if there is one |
| ActivityManagement.ActivityManager.ResolveActivity | app/runtime/activity_manager.py:759-800 | activated exactly when nothing is in the foreground or it is interruptible and of lower priority, then suspended; else deferred |
| ActivityManagement.ActivityManager.CancelActivity | app/runtime/activity_manager.py:509-530 | cancels what is not finished, freeing the foreground |
| ActivityManagement.ActivityManager.DiscardDeferredAutonomous | app/runtime/activity_manager.py:532-553 | exactly the pending and suspended autonomous talk is cancelled, and returned in order |
| ActivityManagement.ActivityManager.ResumeNextPending | app/runtime/activity_manager.py:605-619 | activates the best pending activity, called only without a foreground |
| ActivityManagement.ActivityManager.CompleteProcessedActivity | app/runtime/activity_manager.py:574-603 | completes and returns one activity, and resumes only if it was the foreground |
| ActivityManagement.ActivityManager.CompleteForegroundActivity | app/runtime/activity_manager.py:555-572 | completes and returns the foreground as if it had been named |
| ActivityTheorems.ApplyAdvances | app/runtime/activity_manager.py:481-553 | no operation removes an activity or moves its status backwards |
| ActivityTheorems.Lifecycle | app/runtime/activity_manager.py:354-619 | over every run: ACTIVE is the foreground, finished stays finished, suspended only ends |
| ActivityTheorems.ForegroundOnce | app/runtime/activity_manager.py:832-843 | an activity is in the foreground for one unbroken stretch |
| ActivityTheorems.RegisteringRevives | app/runtime/activity_manager.py:57-61 | registering revives a finished activity exactly when it reuses its id |
| ActivityTheorems.EventOnce | app/runtime/activity_manager.py:417-425 | over every run in which nothing is registered under the event's id, at most one activity has it as its source |
| ActivityTheorems.KnownEventChangesNothing | app/runtime/activity_manager.py:417-425 | over such a run, handling or preparing an event of a known activity leaves the manager unchanged and finds exactly that activity |
| ActivityTheorems.PreparedIsHandled | app/runtime/activity_manager.py:354-425 | a text that suspended talk is handled later as the same, ACTIVE conversation |
| ActivityTheorems.NonInterruptibleStays | app/runtime/activity_manager.py:802-819 | a non-interruptible foreground leaves exactly by its own completion or cancellation |
| ActivityTheorems.EveryHandOver | app/runtime/activity_manager.py:759-800 | every replacement of one foreground by another: by completion, by a strictly higher priority, or by a user's text |
| ActivityTheorems.TextDisplacesTalk | app/runtime/activity_manager.py:621-757 | a user's text displaces autonomous talk unless its event's priority is more than 44 below |
| ActivityTheorems.OnlyTalkAndIdleYield | app/runtime/activity_manager.py:621-757 | of the activities made from events exactly autonomous talk and idle observation can be displaced |
| ActivityTheorems.UrgencyOfEvents | app/runtime/activity_manager.py:621-757 | what each event starts, and the order of urgency at equal event priority |
| ActivityTheorems.CompletionHandsOver | app/runtime/activity_manager.py:574-619 | completion hands over to the best remaining pending activity, earliest on ties |
| ActivityTheorems.CompletionLeavesNothingPending | app/runtime/activity_manager.py:605-619 | if nobody takes over, nothing is pending |
| ActivityTheorems.ConversationEndsStaleTalk | app/runtime/activity_manager.py:594-598 | the end of a conversation cancels all autonomous talk put off before |
| ActivityTheorems.StuckOnlyAfterCancel | app/runtime/activity_manager.py:509-530 | pending work is left without a foreground exactly by cancelling the foreground |
| PlannedQueue.SortedRefinesArrivals | app/runtime/planned_activity_queue.py:55-153 | the re-sorted list behaves as arrivals from which the first of the best is taken |
| PlannedQueue.AlwaysOrdered | app/runtime/planned_activity_queue.py:133-139 | the list is ordered by explicit or the activity's priority and creation time, descending, after every operation |
| PlannedQueue.GetIsMaximal | app/runtime/planned_activity_queue.py:69-77 | `get` returns an unexpired item of highest priority, the latest created on ties, if there is one |
| PlannedQueue.RunConserves | app/runtime/planned_activity_queue.py:55-153 | everything put was returned, expired, discarded or cleared, or is still there |
| PlannedQueue.PlannedActivityQueue.PutItem | app/runtime/planned_activity_queue.py:55-60 | put keeps the order and adds the item |
| PlannedQueue.PlannedActivityQueue.Next | app/runtime/planned_activity_queue.py:69-77 | drops the expired and takes the head |
| PlannedQueue.PlannedActivityQueue.DiscardExpired | app/runtime/planned_activity_queue.py:141-153 | splits the list into expired and live, orders kept |
| PlannedQueue.PlannedActivityQueue.DiscardItems | app/runtime/planned_activity_queue.py:95-104 | splits the list by the predicate, orders kept |
| CancellationTheorems.MoveKeepsInv | app/runtime/activity_planner_thread.py:217-262 | every step of planner, user text, executor or anyone else keeps the protocol's invariants |
| CancellationTheorems.FateOfOldPlan | app/runtime/runtime_coordinator.py:351-371 | after the steps for a user's text an old plan is in exactly one place, never in the queue, and rejected or discarded ones are finished |
| CancellationTheorems.StalePlanIsRejected | app/runtime/activity_planner_thread.py:239-252 | a plan whose generation was read before the bump fails the check and is cancelled |
| CancellationTheorems.CheckExactly | app/runtime/activity_planner_thread.py:239-246 | over every run, the exact outcome of a check: rejected and not queued if it is autonomous talk planned in an older generation, else queued with nothing rejected |
| CancellationTheorems.RejectedByCheck | app/runtime/activity_planner_thread.py:239-252 | over every run, whatever was rejected was autonomous talk of an older generation at its check |
| CancellationTheorems.SweptExactly | app/runtime/activity_manager.py:532-553 | discarding put-off talk cancels exactly that |
| CancellationTheorems.OldPlanNeverQueued | app/runtime/activity_planner_thread.py:239-246 | no old plan is or ever will be in the queue again |
| CancellationTheorems.SubmittedWasActive | app/runtime/activity_executor_thread.py:118-144 | only what was ACTIVE at the last status check is submitted |
| CancellationTheorems.ChecksExactly | app/runtime/activity_executor_thread.py:69-118 | both status checks let through exactly what is ACTIVE or unknown |
| CancellationTheorems.ExecutedIsCompleted | app/runtime/activity_executor_thread.py:85-103 | what was executed, or could not be planned, is completed |
| CancellationTheorems.UndisturbedIsSubmitted | app/runtime/activity_executor_thread.py:47-144 | the first in the queue is submitted if it is ACTIVE and nothing comes between |
| CancellationTheorems.AtMostOneStraggler | app/runtime/activity_executor_thread.py:47-144 | at most one old plan is still submitted: the one already popped |
| CancellationTheorems.DisplacedNotSubmitted | app/runtime/activity_executor_thread.py:118-144 | what was displaced or finished before the last check is never submitted |
| CancellationTheorems.TextInterruptsTalk | app/runtime/runtime_coordinator.py:349-371 | a user's text suspends the talk in the foreground, which is not submitted afterwards |
| CancellationThreads.PlannerThread.CheckAndPut | app/runtime/activity_planner_thread.py:239-246 | rejected exactly when it is autonomous talk and the generation changed, else queued beside the rest; as in the protocol |
| CancellationThreads.PlannerThread.CancelInflightAutonomous | app/runtime/activity_planner_thread.py:303-312 | the generation is raised by one |
| CancellationThreads.CancelPendingAutonomous | app/runtime/activity_executor_thread.py:217-241 | all autonomous talk leaves the queue and is finished, everything else stays in order |
| BehaviorPlanning.AsksExactly | app/runtime/behavior_planner.py:171-244 | the exact condition under which a plan asks for confirmation first |
| BehaviorPlanning.LowConfidenceAsks | app/runtime/behavior_planner.py:221-244 | a language model's analysis below the threshold always asks, ongoing activity or not |
| BehaviorPlanning.StartsExactly | app/runtime/behavior_planner.py:171-271 | with nothing going on: exactly when an activity is started or continued, and which |
| BehaviorPlanning.ContinuesExactly | app/runtime/ongoing_input.py:37-64 | the exact inputs that go on with the current activity at once |
| BehaviorPlanning.OtherIsSwitchedTo | app/runtime/ongoing_input.py:58-64 | wanting another registered activity asks, and after a yes switches to exactly that one |
| BehaviorPlanning.SwitchesAtOnce | app/runtime/ongoing_input.py:23-86 | deciding to switch leads to the other registered activity or to talk |
| BehaviorPlanning.ConfirmedAsAsked | app/runtime/runtime_coordinator.py:653-683 | starting, continuing and stopping are confirmed as such, anything else is talk |
| BehaviorPlanning.ClarificationMerges | app/runtime/pending_confirmation.py:179-219 | a clarification replaces the constraints it names, keeps the others, and is taken over only if valid |
| BehaviorPlanning.DecisionsAreKept | app/runtime/runtime_coordinator.py:653-683 | a confirmed plan never asks; validating and revising keep the decision |
| BehaviorPlanning.AcceptedExactly | app/runtime/behavior_planner.py:369-455 | exactly which plans validation accepts, by operation, first matching definition, version, constraints and availability |
| BehaviorPlanning.AcceptedTwice | app/runtime/behavior_planner.py:369-455 | a plan accepted once is unchanged by a second validation, and rejected exactly when filling changed an enum verdict or the capability is lost |
| BehaviorPlanning.AcceptedConforms | app/runtime/behavior_planner.py:413-455 | an accepted plan runs against a definition with its operation, and its constraints conform exactly when filling changed no enum verdict |
| BehaviorPlanning.PlannedIsAccepted | app/runtime/behavior_planner.py:246-271 | a plan made for a registered definition passes validation exactly when operation and capability are there and filling changed no enum verdict |
| BehaviorPlanning.CheckedAsProved | app/runtime/behavior_planner.py:176-181 | the validator the planner uses answers as the validator method is proved to |
| PendingConfirmations.RunConserves | app/runtime/pending_confirmation.py:43-242 | over every run, with looks of other threads anywhere: all that was created is there and nothing else, with one record too many for each stale answer; exactly without those everything is current or in history once, finished, in order |
| PendingConfirmations.StaleExactly | app/runtime/pending_confirmation.py:43-54 | over every run: an answer is stale exactly when another thread looked at or after the expiry since the reading |
| PendingConfirmations.AnswerConservesIff | app/runtime/pending_confirmation.py:120-178 | for any looks in between, answering what was read conserves exactly when all came before the expiry |
| PendingConfirmations.ResolveConservesIff | app/runtime/pending_confirmation.py:120-150 | `resolve` conserves exactly when given the current confirmation |
| PendingConfirmations.ReviseConservesIff | app/runtime/pending_confirmation.py:152-235 | `revise` conserves exactly when given the current confirmation |
| PendingConfirmations.ReviseMeasure | app/runtime/pending_confirmation.py:162-178 | a non-final answer uses up an attempt and moves neither expiry nor identity |
| PendingConfirmations.ExpiryNeverMoves | app/runtime/pending_confirmation.py:43-242 | over every run, stale answers included: every record, current or finished, expires the timeout after its own creation |
| PendingConfirmations.HistoryTells | app/runtime/pending_confirmation.py:120-178 | over every run, the status of each finished record and the answer recorded with it agree |
| PendingConfirmations.AnswersAreBounded | app/runtime/pending_confirmation.py:152-178 | at most `max_attempts` non-final answers per confirmation over any run |
| PendingConfirmations.PendingConfirmationManager.Current | app/runtime/pending_confirmation.py:43-54 | returns the pending confirmation exactly while it has not expired, else closes it |
| PendingConfirmations.PendingConfirmationManager.CreateFor | app/runtime/pending_confirmation.py:59-118 | the previous one is superseded, the new one becomes current |
| PendingConfirmations.PendingConfirmationManager.ResolveItem | app/runtime/pending_confirmation.py:120-150 | whatever it is given, current or not, moves to history with its final status and nothing is current; other kinds raise |
| PendingConfirmations.PendingConfirmationManager.ReviseItem | app/runtime/pending_confirmation.py:152-235 | whatever it is given, current or not, becomes current with another attempt and the revised plan, or fails after the last |
| ConfirmationRoute.ConfirmedCommand | app/runtime/runtime_coordinator.py:449-491 | in any interleaving, a command from a candidate: asked before, read by this very turn before the expiry fixed when asked, then affirmed by it with nothing but noticed expiries in between, not dropped, about the same target |
| ConfirmationRoute.ExpiredCommand | app/runtime/runtime_coordinator.py:449-479 | a command whose confirmation was noticed to have expired: noticed between this turn's reading and its yes, or the clock was set back before the reading |
| ConfirmationRoute.ExpiredBeforeReadNeverRuns | app/runtime/pending_confirmation.py:43-54 | with a clock that is not set back, only between the reading and the yes |
| ConfirmationRoute.YesAfterLooks | app/runtime/runtime_coordinator.py:449-491 | the converse: for any looks of other threads between reading and yes the candidate runs, so after its noticed expiry exactly when one of them came at or after it |
| ConfirmationRoute.ExpiredYetRun | app/runtime/runtime_coordinator.py:449-491 | a concrete run: asked at 0 with a timeout of 10, read at 9, looked at by another thread at 10, affirmed, handler called |
| ConfirmationRoute.ConfirmedCommandTarget | app/runtime/runtime_coordinator.py:653-683 | it is validated, and is the candidate's activity and operation or the stop that a switch to it begins with; mere talk never becomes a command |
| ConfirmationRoute.DirectCommand | app/runtime/runtime_coordinator.py:522-545 | a command without confirmation serves a plan that does not ask, so never a low-confidence language model |
| ConfirmationRoute.DirectCommandWhileOngoing | app/runtime/ongoing_input.py:37-64 | while something is going on, hypothetical or past mentions never become a command, and a stop was asked for unless it makes way for a switch |
| ConfirmationRoute.DroppedNeverRuns | app/runtime/runtime_coordinator.py:492-521 | in any interleaving, what was refused, cancelled, superseded or failed never becomes a command |
| ConfirmationRoute.YesServesOneTurn | app/runtime/runtime_coordinator.py:472-479 | one yes serves one turn, however turns interleave |
| ConfirmationRoute.SwitchFollowsStop | app/runtime/runtime_coordinator.py:1260-1271 | in any interleaving, a command for the target of a switch follows a stop of the same turn that succeeded |
| ConfirmationRoute.BehaviorRoute.Begin | app/runtime/runtime_coordinator.py:448-449 | reads the pending confirmation exactly when it has not expired, otherwise goes on to planning |
| ConfirmationRoute.BehaviorRoute.Answer | app/runtime/runtime_coordinator.py:450-521 | the same whether or not the expiry was noticed since: yes makes the confirmed candidate the plan of this turn, a new request goes on to planning, every other answer closes or revises and ends the turn |
| ConfirmationRoute.BehaviorRoute.Decide | app/runtime/runtime_coordinator.py:522-545 | asks with a new confirmation, in place of one another turn may have created, exactly when the plan says so; otherwise goes on with the plan |
| ConfirmationRoute.BehaviorRoute.CarryOut | app/runtime/runtime_coordinator.py:543-651 | exactly what is written and when it is handed over, for switches and other plans; nothing if validation rejects |
| ConfirmationRoute.BehaviorRoute.RouteInput | app/runtime/runtime_coordinator.py:420-651 | the steps of one input in a row keep the log safe; an answer is merely noted only when it is neither yes nor a new request |
| ConfirmationRoute.BehaviorRoute.Execute | app/runtime/runtime_coordinator.py:543-651 | handed over exactly when both validations accept and the handler is reached, for a switch when the stop before succeeded too; the commands exactly |
| ConfirmationRoute.BehaviorRoute.RoutePlugin | app/runtime/runtime_coordinator.py:783-912 | the handler is called only with a plan accepted immediately before |
| ConfirmationRoute.BehaviorRoute.RouteSwitch | app/runtime/runtime_coordinator.py:1212-1285 | handed over exactly when there is an active definition, the stop is accepted twice, reaches its handler and succeeds, and the new plan is accepted and reaches its handler; both commands exactly |
| ConfirmationRoute.Interleave | app/runtime/runtime_coordinator.py:420-651 | the log is safe for any number of turns with steps in any order and expiries noticed at any time, also between reading and answering |
| StreamEnd.SafeMeans | app/usecases/end_stream_session_usecase.py:242-315 | final status only after this command read broadcast complete, OBS idle, stream stopped; OBS stopped normally only after broadcast complete; a completed closing talk not started again; ended sessions untouched |
| StreamEnd.ClosingAtMostOnce | app/usecases/end_stream_session_usecase.py:111-122 | the closing talk is recorded as completed at most once per session |
| StreamEnd.CancelledExactly | app/usecases/end_stream_session_usecase.py:76-83 | an emergency cancels a normal end that has not gone exactly when no other has arrived since |
| StreamEnd.EndStreamSession.NormalLocked | app/usecases/end_stream_session_usecase.py:85-126 | for every environment exactly: refusals, outcome, calls and saved states in order, the session left, when it calls out and when it starts the closing talk |
| StreamEnd.EndStreamSession.EmergencyLocked | app/usecases/end_stream_session_usecase.py:135-180 | for every environment exactly: refusals, outcome, calls and saved states in order, output cancelled before stopping, the session left |
| StreamEnd.NormalRefusedFor | app/usecases/end_stream_session_usecase.py:85-104 | each reason for refusing a normal end, exactly |
| StreamEnd.EmergencyRefusedFor | app/usecases/end_stream_session_usecase.py:135-158 | each reason for refusing an emergency stop, exactly |
| StreamEnd.EndStreamSession.EmergencyArrives | app/usecases/end_stream_session_usecase.py:128-134 | unless the result is recorded, output is cancelled before the lock and the normal end pointed to is cancelled |
| StreamEnd.EndStreamSession.NormalEnd | app/usecases/end_stream_session_usecase.py:73-83 | a command recorded before it arrives is answered without any call or change |
| StreamEnd.EndStreamSession.EmergencyStop | app/usecases/end_stream_session_usecase.py:128-180 | the same for emergencies; otherwise output is cancelled first |
| StreamEnd.EndStreamSession.StopExternal | app/usecases/end_stream_session_usecase.py:242-315 | for every environment exactly: calls in the order of the mode, outcome, final or failed status |
| StreamEndCalls.NormalCallsRight | app/usecases/end_stream_session_usecase.py:256-271 | within a normal end, for every environment: the broadcast is completed exactly when first read as something else than complete, OBS stopped exactly when first read as not idle |
| StreamEndCalls.EmergencyCallsRight | app/usecases/end_stream_session_usecase.py:254-271 | the same within an emergency stop |
| StreamEndCalls.ObeyedIsDone | app/usecases/end_stream_session_usecase.py:254-315 | both modes succeed against every environment that does what it is asked |
| StreamEndCalls.DoneIsObeyed | app/usecases/end_stream_session_usecase.py:254-315 | and only against such an environment |
| StreamEndCalls.NormalDoneExactly | app/usecases/end_stream_session_usecase.py:109-126 | a normal end succeeds exactly when the closing talk is done or completes, and then everything stops |
| StreamEndCalls.EndNormally | app/usecases/end_stream_session_usecase.py:85-126 | the use case itself: right calls, and `completed` against such an environment |
| StreamEndCalls.EndInEmergency | app/usecases/end_stream_session_usecase.py:135-180 | the same, `emergency_stopped` |
| StreamEnd.EndStreamSession.RunClosing | app/usecases/end_stream_session_usecase.py:182-240 | recorded as completed exactly when the talk's speech completed |
| StreamEnd.EndStreamSession.Fail | app/usecases/end_stream_session_usecase.py:323-362 | the result is recorded and a stoppable session becomes stop_failed |
| StreamEnd.EndStreamSession.Save | app/domain/streaming/session.py:25-79 | every transition the use case makes is in the table, one version up |
| StreamEndHistory.History | app/usecases/end_stream_session_usecase.py:73-180 | every history of arrivals, runs and departures against every environment leaves a safe log and keeps the account of the results |
| StreamEndHistory.RunsAgainExactly | app/usecases/end_stream_session_usecase.py:79-135 | for every state, command with a recorded result and environment: past the entry check it calls out exactly when its checks accept it and, for a normal end, the closing talk is done or possible |
| StreamEndHistory.RunRecordedNormal | app/usecases/end_stream_session_usecase.py:74-122 | after any history: a recorded normal end calls out again exactly when the session still has the expected version and the other components agree |
| StreamEndHistory.RunRecordedEmergency | app/usecases/end_stream_session_usecase.py:128-157 | after any history: a recorded emergency stop calls out again exactly when the session is in `stop_failed` at its version or in `stopping`, and the other components agree |
| StreamEndHistory.RecordedNormalCallsOut | app/usecases/end_stream_session_usecase.py:364-370 | the state behind it: the recorded one, in `stop_failed` with the closing talk still open |
| StreamEndHistory.StillExpected | app/usecases/end_stream_session_usecase.py:103-122 | and the version is the expected one exactly when the recorded run had resumed the session, failed in the closing talk, and nothing has moved the session since |
| StreamEndHistory.RecordedEmergencyCallsOut | app/usecases/end_stream_session_usecase.py:372-383 | the state behind it; a completed emergency stop is never repeated |
| StreamEndHistory.NormalLeftOpen | app/usecases/end_stream_session_usecase.py:103-122 | a run of a normal end that records its result and leaves the state in which its duplicate calls out |
| StreamEndHistory.EmergencyLeftOpen | app/usecases/end_stream_session_usecase.py:372-383 | the same for an emergency stop after a cancelled normal end, back in `stop_failed` |
| StreamEndHistory.EmergencyLeftStopping | app/usecases/end_stream_session_usecase.py:372-383 | the same with a later normal end cancelled in `stopping` |
| StreamEndHistory.TalkStartsAgain | app/usecases/end_stream_session_usecase.py:111-122 | after any history in which the closing talk was started: it is started again exactly when the session is in `stop_failed` without a recorded talk, and the command and the other components agree |
| StreamEndHistory.TalkStartedTwice | app/usecases/end_stream_session_usecase.py:182-240 | a concrete run: a resumed normal end is cancelled in its talk, and the next one starts the talk again |
| StreamEnd.WhereCommandsAreAccepted | app/usecases/end_stream_session_usecase.py:148-157 | the exact statuses from which a session can still be ended |
| TalkPacing.IntervalBounds | app/runtime/agent_life_service.py:523-535 | the interval is in [8,60] for all values, and at most 51.42 whenever talk is allowed |
| TalkPacing.IntervalExactly | app/runtime/agent_life_service.py:523-535 | the interval in seconds for all values there can be |
| TalkPacing.PauseBounds | app/domain/emotions/emotion_state.py:38-54 | the pause after speech by mood and talkativeness, and a more talkative agent never pauses longer |
| TalkPacing.DriveMonotone | app/domain/drives/drive_state.py:21-26 | more drive never keeps the agent from talking, and none without energy |
| TalkPacing.IntervalShrinks | app/runtime/agent_life_service.py:523-535 | a livelier agent never waits longer |
| TalkPacing.SpanBound | app/runtime/agent_life_service.py:286-303 | k planned talks span at least 8(k-1) seconds |
| TalkPacing.RateBound | app/runtime/agent_life_service.py:286-303 | at most floor(T/8)+1 planned talks in any window of T seconds |
| TalkPacing.AgentLifeService.PlanNextEvent | app/runtime/agent_life_service.py:157-347 | a talk is planned exactly when all conditions hold, and planned talks stay eight seconds apart for any clock |
| TalkPacing.AgentLifeService.ResumeReason | app/runtime/agent_life_service.py:358-371 | when talking is fine again after a conversation |
| TalkPacing.Live | app/runtime/agent_life_service.py:157-347 | any sequence of calls obeys the rate bound |
| CommentSpam.SpamDetector.Spam | app/usecases/comment_moderation_usecase.py:292-306 | for any clock the history and verdict follow what was kept; with a clock that has not stepped back a message is flagged exactly when the untruncated detector flags it, and the exact condition for another reason |
| CommentSpam.TruncationIsHarmless | app/usecases/comment_moderation_usecase.py:300-305 | truncation never changes whether a message is flagged |
| CommentSpam.DetectMeaning | app/usecases/comment_moderation_usecase.py:300-306 | the verdict in numbers of copies and messages |
| CommentSpam.ReasonDiffersExactly | app/usecases/comment_moderation_usecase.py:302-305 | truncation changes the reason exactly when the kept end of the window has fewer copies than the limit and the window at least as many |
| CommentSpam.ReasonCanDiffer | app/usecases/comment_moderation_usecase.py:302-305 | inputs on which the reason differs |
| CommentSpam.ExpireLast | app/usecases/comment_moderation_usecase.py:296-301 | expiring and truncating commute on a chronological log |
| CommentSpam.NothingHiddenExactly | app/usecases/comment_moderation_usecase.py:296-297 | popping heads leaves exactly the entries in the window if and only if no old entry stands behind a newer one |
| CommentSpam.ClockStepsBack | app/usecases/comment_moderation_usecase.py:292-306 | three calls with times 50, 10 and 50: the last is flagged, though its true window lets it pass |
| CommentRanking.Rank | app/usecases/comment_ranking_usecase.py:246-276 | ranks, exclusions and eligibility of every entry of the sorted pool, unknown authors included |
| CommentRanking.RankingOrdersPool | app/usecases/comment_ranking_usecase.py:246-250 | a permutation of the pool, ranks 1..n, ordered by score, age and id, scores in [0,1] |
| CommentRanking.OneOriginalPerText | app/usecases/comment_ranking_usecase.py:251-258 | exactly one entry per normalised text is not a duplicate: the best ranked |
| CommentRanking.Choose | app/usecases/comment_ranking_usecase.py:172-178 | the target has the best rank and maximal score of all eligible entries, or none is eligible |
| CommentRanking.EligibleIsOriginal | app/usecases/comment_ranking_usecase.py:255-272 | a repeated comment is never chosen, even when the better ranked one is excluded |
| CommentRanking.ScoreBounds | app/usecases/comment_ranking_usecase.py:405-407 | a score is in [0,1] and within half a millionth of the clamped value |
| CommentRanking.ScoreMonotone | app/usecases/comment_ranking_usecase.py:405-407 | clamping and rounding never swap two values |
| CommentRanking.BetterFeaturesScoreMore | app/usecases/comment_ranking_usecase.py:359-372 | better features and smaller penalties never lower the score |
| CommentRanking.EachFeatureCounts | app/usecases/comment_ranking_usecase.py:359-372 | each feature counts with its own weight, adjustments and penalties with their sign |
| EventPipeline.DrainKeepsUnkeyed | app/runtime/event_buffer.py:25-43 | no unkeyed event is lost, added or reordered |
| EventPipeline.DrainKeepsLatest | app/runtime/event_buffer.py:25-43 | each key comes out exactly once, with its last event |
| EventPipeline.EventBuffer.Put | app/runtime/event_buffer.py:25-31 | the buffer stays the stated function of the put log |
| EventPipeline.EventBuffer.Drain | app/runtime/event_buffer.py:33-43 | returns the stated function of everything put since the last clear |
| EventPipeline.EventQueue.Put | app/runtime/event_queue.py:28-35 | the heap is the stable sort of what waits |
| EventPipeline.EventQueue.Get | app/runtime/event_queue.py:37-39 | takes the earliest put of the highest priority |
| EventPipeline.PublishEvents | app/runtime/runtime_coordinator.py:402-414 | accepted events reach the queue as the drain of the log |
| EventPipeline.TakeAll | app/runtime/event_queue.py:28-39 | emptying the queue gives the stable descending-priority sort |
| EventPipeline.PipelineOrder | app/runtime/runtime_coordinator.py:402-414 | what is handled and in which order, for any published events |
| StableSort.SortCorrect | app/runtime/planned_activity_queue.py:133-139 | the sort orders, permutes, and keeps the order of ties |

## Left out

- HTTP and SSE server, desktop client, configuration, logging, and all adapters (OBS, YouTube, speech, database): input, output and plumbing; their answers are arbitrary inputs here.
- Language model calls, prompts, phrase patterns: the situation analysis, the resolution of an answer and semantic scores are arbitrary inputs.
- ConstraintValidator.Validate: errors carry path and code only, not expected and actual values or messages; their order and how often one is repeated are not stated, since dicts have no order here; dictionary keys are strings; floats are reals, so no NaN or infinity.
- SchedulerTheorems.TasksFinish: for runs in which no waiting task is cancelled (what a cancellation does is stated separately, and makes the property fail); every action ends, the thread pool that runs `acquire` is large enough, and a group is accepted by the lifecycle gate.
- The gate's heap and the event queue's heap are sorted sequences: only the head is ever read.
- Reversed release order of locks and asyncio's binding of locks to event loops: releasing is one step.
- Ongoing activities, turn results, game sessions and activity context values: they do not take part in the arbitration of the foreground.
- The stream lifecycle gate and the fact validators: finite decision tables, taken as an oracle.
- CancellationTheorems.FateOfOldPlan: planned activities made by the planner carry no expiry, as in the program; the event queue gives each event to the planner once; the texts of users are handled one after the other, as the event loop does.
- PendingConfirmations.RunConserves: turns share one event loop and the route does not await between reading and answering, so only other threads' looks come between.
- ConfirmationRoute.BehaviorRoute.Execute: for a runtime configured with planner, validator, plugins and confirmation manager; the loop over plugins is one outcome, since at most one handler is called; validating and handing over is one step, since it changes nothing that other turns read here.
- Question texts and confirmation types, trace ids, goals and reasons of plans: carried along without a decision.
- StreamEnd.EndStreamSession.NormalLocked: statuses of a session change only through this use case while it ends; result timestamps and published events are not recorded.
- CommentSpam.SpamDetector.Spam: the agreement with the true window is stated for authors whose clock has not stepped back, since it fails otherwise.
- CommentRanking.Rank: features are inputs; text normalisation is an arbitrary function; candidate ids are numbers; reals stand for floats.
- Reservation and release of a chosen comment, and moderation rules other than spam: easy members.
- Deciding topics, drives and emotions for autonomous talk: inputs to the pacing.

# signalwatch: the alerting core, verified

signalwatch evaluates rules, turns their outcomes into incidents, and notifies the
subscriptions that match a rule. This project models that core in Dafny and proves what it
promises, about every input, every run and every interleaving:

- **The dispatcher** (`Dispatchers.dfy`, over the tables of `Storage.dfy`). Each evaluation
  outcome opens, keeps or closes an incident, and each matching subscription goes through
  dwell, first notification, repeat, resolution and the one-shot gate. The code keeps only one
  live state per rule, one counter row per (incident, subscription) and the audit rows. The
  methods are proved equal to the functions of `Dispatch.dfy`, failures of store calls included;
  everything else is proved about those functions.
- **What was promised is a statement about history** (`Reference.dfy`, `Refinement.dfy`). The
  reference knows no store: it declares, for a list of evaluation outcomes, which ticks alert.
  The declaration has exactly one solution, and the dispatcher sends exactly what it calls for,
  over every serial run of ticks of all rules, evaluation errors and prunes.
- **Three goroutines over one store** (`Machine.dfy`, `Concurrent.dfy`, `Safety.dfy`,
  `Guarantees.dfy`, `Archive.dfy`, `LateTick.dfy`). The push evaluator, the scheduled evaluator and the
  retention loop make one store call at a time, in any order, and any call may fail; a rule moves
  from one evaluator to the other whenever neither is working on it. The small steps of a tick,
  taken alone, are proved to add up to the tick. An invariant over every interleaving gives
  incident safety, a full account of what failures leave behind, and exactly what a retention
  pass deletes compared with what it archived.
- **The refinement under interleaving** (`Underway.dfy`, `Interleaved.dfy`). What a tick under way has
  still to do for a subscription is a function of its position; no step of the tick changes
  what it comes to, and no step of anybody else reaches it. So whatever happens in between, the
  completed ticks of a rule have told a recurring subscription exactly what the history of
  the rule calls for.
- **Every subscription, whatever fails** (`Reasons.dfy`, `Channels.dfy`, `StoredRows.dfy`): for each kind
  of message what has to hold before it is sent, and that a reason is acted on; that repeats and
  resolutions come after a firing message; which channels a message may go to; and what the
  stored rows say of what was done.
- **One-shot subscriptions** (`OneShot.dfy`, `OneShotDue.dfy`, `OneShotPromise.dfy`, `OneShotRuns.dfy`):
  what holds of them over every run, whatever fails; that they are sent the first batch that the
  histories call for; exactly when the documented promise holds; and runs in which it does not.
- **Window buffers and the rules over them** (`Windows.dfy`, `WindowRules.dfy`, `Thresholds.dfy`): a
  pruned index that answers like a filter over everything ever observed, and what each operator asks
  of the samples.
- **The compiled-rule cache and the scheduler** (`Engine.dfy`, `Scheduler.dfy`).

Time is an integer number of nanoseconds; the store keeps whole milliseconds, and a column that
is not positive reads back as the zero time. Ids come from a counter (0 is the empty id). `Env`
holds what the code does not decide: which store calls fail, which sends succeed, and which
channels are configured. Clock readings are parameters. Results about serial runs ask for clock
readings of at least one millisecond after the epoch, since earlier ones do not survive the
store (`Base.StoreRoundTrip` says exactly which do). The refinement holds even for a clock that runs
backwards, when the dispatcher asks for the dwell again before it repeats; for any other clock
`Reference.DwellStays` shows that the repeat interval alone decides.

## Where the code and its documentation part

- `internal/subscriber/subscriber.go:42-50` and `internal/dispatcher/dispatcher.go:254-260`
  promise a one-shot subscription exactly one notification over its lifetime, the former one
  successful notification. What holds is one *batch*, one message per eligible binding, of which
  failed sends count as well (`internal/store/store.go:104-111`), for as long as one of its
  rows is kept. `OneShotRuns` has a tick that sends two messages, a batch that fails and closes the
  gate for good, and a prune that re-arms the subscription. Without prunes and failing store
  calls, at most one message is sent in every run exactly if there is at most one eligible
  binding (`OneShotPromise.AtMostOneExactly`), and something sent means something accepted
  exactly if some eligible binding is on a channel that always accepts, or there is no
  eligible binding (`OneShotPromise.SuccessExactly`). A second batch takes a prune that removed
  the last row of the first (`OneShot.SecondBatchTakesPrune`).
- `internal/dispatcher/dispatcher.go:176-178` resolves an incident only for those who were sent a firing
  notification of it, so that a resolution is never the first they hear. What the code checks
  is the count of the (incident, subscription) row, which moves on as well when the one-shot
  gate stops the firing message. `OneShotRuns.EndWithoutBeginning` is a run in which a one-shot
  subscription is told of the end of an incident whose beginning it was never told. For a recurring
  subscription, and for a one-shot one as long as no prune takes its last row, the order holds
  in every run whatever fails (`Reasons.ToldInOrder`). In any other run without failing calls a
  resolution comes after a firing message exactly if no row of the subscription was kept when
  the incident began to count as told (`Reasons.CalmResolvedHeardExactly`; with failures,
  `Reasons.ResolvedHeardExactly`).
- `internal/retention/retention.go:102-104` says that an incident resolved during a prune is
  safe. It is if the tick read its clock at or after the cutoff. `LateTick.LateTickEscapes` is a
  run in which a tick with an older clock reading closes its incident after the listing: the
  delete removes it although it was never offered to the archiver. `Archive.DeletedExactly`
  says which incidents escape, and that the incidents offered and deleted agree exactly if no such
  tick closed one. Audit rows can escape too, when a late tick that closed its incident before the
  listing records one after the incident was offered; `Archive.DeletedRowsExactly` gives the
  exact condition for incidents and rows together.
- `internal/eval/window.go:25-27` calls the span the longest window a rule may look at. A window
  exactly as long as the span loses the sample on its edge, because pruning drops it (`After`)
  and the window includes it (`!Before`); `Windows.ExactExactlyBelowSpan` gives the exact condition.
- The rule API keeps the cache equal to a rebuild except when an update enables a rule that is not
  stored, or turns a cached rule into one that does not compile (`Engine.InStepExactly`, both
  directions). A reload only adds to the cache (`Engine.ReloadExactly`).
- Window buffers join the input name and the field with a slash. Two inputs share a buffer exactly if
  the name of one, followed by a slash, is a prefix of the other name followed by a slash
  (`Windows.KeysMeetExactly`), as for `a` and `a/b`; and each field of each input reads only its own
  samples, whatever is observed, exactly if no two names are like that
  (`Windows.InputsApartExactly`). Names without slashes never are, and `x/y` and `z/w` are not either.

## Model

| member | source | states |
|---|---|---|
| Base.StoreRoundTrip | internal/store/sqlite/sqlite.go:684-706 | a stored time comes back rounded down, by less than a millisecond, exactly if it is at least 1 ms after the epoch or in the first millisecond of the zero time; any other comes back as the zero time |
| RuleState.LiveState.Apply | internal/rule/state.go:28-64 | the record updated in place and the transition returned, for every prior state and outcome; the last error is never cleared |
| RuleState.ApplyMeaning | internal/rule/state.go:28-80 | the state is FIRING iff the outcome triggered; openings carry the new id and time, closings name and clear the old incident; everything else keeps both; value and evaluation time are those of the outcome, the last error is kept |
| Conditions.CompilesUnless | internal/rule/condition.go:103-172 | a condition is refused only for an empty field, a window that is not positive, or an unknown aggregate or operator |
| Tables.ListForRuleExact | internal/store/sqlite/sqlite.go:362-403 | every subscription that names the rule or selects its labels is listed exactly once, and nothing else |
| Tables.ListedExactly | internal/store/sqlite/sqlite.go:362-403 | a subscription is listed iff it names the rule, or names none, selects something, has each selected non-empty value literally among the labels and each empty one missing or empty there |
| Tables.NamingFirst | internal/store/sqlite/sqlite.go:362-391 | subscriptions that name the rule come before those that select its labels |
| Tables.LiveRoundTrip | internal/store/sqlite/sqlite.go:671-719 | a stored live state is read back with times rounded down, or zero if not after the epoch; other rules keep theirs |
| Tables.SubRoundTrip | internal/store/sqlite/sqlite.go:756-794 | stored counters are read back with the time rounded down or zero; other pairs keep theirs |
| Tables.OpenedThenResolved | internal/store/sqlite/sqlite.go:454-463 | an incident opened and then resolved keeps rule, start and value; other incidents are untouched and an unknown id changes nothing |
| Tables.ListsResolvedExactly | internal/store/sqlite/sqlite.go:494-503 | a list is the right one iff it holds exactly the incidents with a resolution time below the cutoff, none twice, in the order of that time |
| Tables.PruneExact | internal/store/sqlite/sqlite.go:505-554 | exactly the incidents that are unresolved or resolved at or after the cutoff stay, with all their audit rows and sub-states and nobody else's; the count adds up |
| Storage.Store.constructor | internal/store/sqlite/sqlite.go:26-49 | whatever the opened database holds |
| Storage.Store.GetLiveState | internal/store/sqlite/sqlite.go:671-697 | the stored live state, times not positive read as zero, or none |
| Storage.Store.UpsertLiveState | internal/store/sqlite/sqlite.go:699-719 | one row per rule replaced, in whole milliseconds; a failing call changes nothing |
| Storage.Store.OpenIncident | internal/store/sqlite/sqlite.go:454-458 | an unresolved row is inserted, or an error if the id exists |
| Storage.Store.ResolveIncident | internal/store/sqlite/sqlite.go:460-463 | the resolution time is set; an unknown id is no error |
| Storage.Store.ListResolvedBefore | internal/store/sqlite/sqlite.go:494-503 | exactly the incidents resolved strictly before the cutoff, each once, by resolution time |
| Storage.Store.DeleteChildren | internal/store/sqlite/sqlite.go:536-543 | deleting id by id removes all and only the rows of the listed incidents |
| Storage.Store.DeleteResolvedBefore | internal/store/sqlite/sqlite.go:505-554 | the whole prune or nothing, and the number of incidents deleted |
| Storage.Store.Record | internal/store/sqlite/sqlite.go:598-604 | one audit row appended |
| Storage.Store.ListForIncident | internal/store/sqlite/sqlite.go:606-613 | all audit rows of the incident, in insertion order |
| Storage.Store.ExistsForSubscription | internal/store/sqlite/sqlite.go:627-641 | whether any row, of either status, exists |
| Storage.Store.GetSubState | internal/store/sqlite/sqlite.go:756-779 | the stored counters of the pair, or none |
| Storage.Store.UpsertSubState | internal/store/sqlite/sqlite.go:781-794 | the counters of one pair replaced, in whole milliseconds |
| Storage.Store.MatchLabels | internal/store/sqlite/sqlite.go:393-403 | true iff something is selected, each non-empty value is literally that of the label, and each empty one is missing or empty |
| Storage.Store.ListSubscriptions | internal/store/sqlite/sqlite.go:362-391 | the loop lists, each once and those naming the rule first, exactly the subscriptions described for `ListedExactly`, in terms of the table |
| Dispatchers.Dispatcher.ChannelFilterSet | internal/dispatcher/dispatcher.go:352-361 | no filter for an empty list, otherwise membership in it |
| Dispatchers.Dispatcher.SendAndRecord | internal/dispatcher/dispatcher.go:302-339 | one message and one audit row; a failed record is not an error |
| Dispatchers.Dispatcher.DeliverOpen | internal/dispatcher/dispatcher.go:272-349 | a batch over the eligible bindings in order; a failed or missing subscriber is an error |
| Dispatchers.Dispatcher.Deliver | internal/dispatcher/dispatcher.go:235-350 | the one-shot gate before any send; suppression is not an error |
| Dispatchers.Dispatcher.EvaluateSubscription | internal/dispatcher/dispatcher.go:162-233 | resolution and firing paths, with every early return and failing call, as the specification function |
| Dispatchers.Dispatcher.MarkIncident | internal/dispatcher/dispatcher.go:119-137 | opens on opening, resolves on closing, else nothing |
| Dispatchers.Dispatcher.EvaluateEach | internal/dispatcher/dispatcher.go:145-151 | each subscription is evaluated in turn, errors of some notwithstanding |
| Dispatchers.Dispatcher.NotifyAll | internal/dispatcher/dispatcher.go:139-152 | all listed subscriptions are evaluated, errors of some notwithstanding |
| Dispatchers.Dispatcher.Tick | internal/dispatcher/dispatcher.go:78-153 | the whole tick, with every failure exit, equals the specification function that the run theorems are about |
| Dispatchers.Dispatcher.EvalError | internal/eval/eval.go:189-203 | an evaluation error is stored without flipping the state |
| Views.PostSends | internal/dispatcher/dispatcher.go:287-340 | a batch sends one message per eligible binding, in the subscriber's order, whatever fails |
| Views.PostRecords | internal/dispatcher/dispatcher.go:315-340 | and records one audit row for each, if no record fails |
| Views.EvaluateOwn | internal/dispatcher/dispatcher.go:162-233 | what an evaluation whose own calls succeed does to its own counters, rows and messages |
| Views.Bystander | internal/dispatcher/dispatcher.go:145-151 | a subscription that is not evaluated keeps its rows, counters and messages |
| Views.Independence | internal/dispatcher/dispatcher.go:145-151 | whatever the other subscriptions are and whichever of their calls fail, a tick does to each subscription what its own evaluation does |
| Views.OrderIrrelevant | internal/dispatcher/dispatcher.go:145-151 | any two orders of the list leave a subscription with the same rows, counters and messages |
| Serial.TickConsistent | internal/dispatcher/dispatcher.go:78-153 | a tick keeps live states, incidents, counters and audit rows consistent with each other |
| Serial.RunConsistent | internal/dispatcher/dispatcher.go:78-153 | every store reached by ticks, evaluation errors and prunes is consistent |
| Serial.FiringIffUnresolved | internal/dispatcher/dispatcher.go:106-137 | a rule is FIRING iff exactly one of its incidents is unresolved; id and start match the live state |
| Serial.IncidentHistory | internal/rule/state.go:28-64 | with a clock that does not run backwards the incidents of a rule are ordered, non-overlapping intervals |
| DeliveryLog.TickOwnView | internal/dispatcher/dispatcher.go:139-233 | a tick does to a listed subscription one evaluation step, and to any other nothing |
| DeliveryLog.LogAgreement | internal/dispatcher/dispatcher.go:171-231 | in every reachable store the audit rows of an (incident, recurring subscription) are the batches firing, repeats, at most one resolved, that its counters count |
| DeliveryLog.CountersReadOff | internal/dispatcher/dispatcher.go:213-231 | kind, channel and address of each row by its position; the notify count and last-notified time are those of the rows |
| DeliveryLog.ResolutionReadOff | internal/dispatcher/dispatcher.go:176-190 | resolution is marked sent iff a resolved row exists, and a firing row comes before it |
| Reference.ScheduleUnique | internal/dispatcher/dispatcher.go:197-231 | the declared alert schedule of a run has exactly one solution |
| Reference.AlertsAreSchedule | internal/dispatcher/dispatcher.go:197-231 | deciding tick by tick yields that solution |
| Reference.DwellStays | internal/dispatcher/dispatcher.go:197-200 | with a clock that does not run backwards, alerts after the first hang on the repeat interval alone |
| Reference.DwellBound | internal/dispatcher/dispatcher.go:197-200 | no first alert at or before start + dwell - 1 ms |
| Reference.RepeatBound | internal/dispatcher/dispatcher.go:223-230 | the n-th further alert is at least n * (interval - 1 ms) later; in rounded time exactly n intervals for whole milliseconds |
| Reference.RunTiming | internal/dispatcher/dispatcher.go:197-230 | both bounds for the alerts of every history |
| Reference.BatchDueMeaning | internal/dispatcher/dispatcher.go:170-231 | firing iff first alert of the run, repeat iff a later one, resolved iff the run just ended, alerted, and resolutions are wanted |
| Refinement.OpeningRefines | internal/dispatcher/dispatcher.go:192-221 | on the opening tick the dispatcher alerts iff the history calls for it |
| Refinement.OngoingRefines | internal/dispatcher/dispatcher.go:192-231 | likewise in an ongoing run, from the rounded times it stored |
| Refinement.RunTracks | internal/dispatcher/dispatcher.go:78-233 | live state and counters summarize the history of their rule over the whole run |
| Refinement.DispatcherRefinesReference | internal/dispatcher/dispatcher.go:78-233 | everything sent to a recurring subscription for a rule, over every run, is exactly what the history of that rule calls for |
| OneShot.TickAdds | internal/dispatcher/dispatcher.go:254-340 | whatever fails in it, a tick leaves what was sent and recorded for a subscription as it is, or sends one batch of one kind, to a one-shot subscription only if it had no row; at most one row per message |
| OneShot.OneBatchInStore | internal/dispatcher/dispatcher.go:261-270 | in every reachable store, whatever fails, all its audit rows share incident, kind and time |
| OneShot.OneBatchPerRun | internal/dispatcher/dispatcher.go:254-270 | as long as what is sent leaves a row and no prune removes the last row, whatever else fails, the total ever sent is nothing or exactly one batch, across rules, incidents and kinds |
| OneShot.SecondBatchTakesPrune | internal/store/sqlite/sqlite.go:536-543 | if a first sending left a row, then before any second one, whatever fails, a prune strictly in between removed the last row |
| OneShot.SuccessIsDecidedOnce | internal/subscriber/subscriber.go:42-50 | whether any notification is ever accepted is settled by the one tick that sends the batch |
| OneShot.CalmRun | internal/dispatcher/dispatcher.go:337-339 | without failing calls what is sent leaves a row; without prunes rows are kept |
| Channels.EligibleExactly | internal/dispatcher/dispatcher.go:280-300 | the eligible bindings are, in order, exactly those whose channel is configured and, unless the filter is empty, in the filter |
| Channels.TickMessages | internal/dispatcher/dispatcher.go:287-340 | whatever fails, a tick sends a subscription nothing or exactly one message for each such binding, in order, with address, value, incident and time of the tick |
| Channels.NobodyElse | internal/dispatcher/dispatcher.go:139-151 | nothing is sent for a subscription that does not exist |
| Channels.EveryMessageAllowed | internal/dispatcher/dispatcher.go:287-300 | in every run, whatever fails, each message goes to a binding of the subscriber, on a configured channel, and on one of the filter unless that is empty |
| Reasons.TickExplained | internal/dispatcher/dispatcher.go:162-233 | whatever fails, a tick leaves messages, rows and counters of a subscription alone, or the literal condition for one kind holds, it sends that batch, and the counters move on only if the batch went out or the one-shot gate stopped it |
| Reasons.TickTells | internal/dispatcher/dispatcher.go:162-233 | without failures the condition for a kind is enough: the batch goes out, unless the gate is closed, and the counters move on |
| Reasons.TickErrs | internal/dispatcher/dispatcher.go:97-142 | a tick returns an error iff a call before the evaluation of subscriptions fails or the new incident exists; then nothing was sent |
| Reasons.ClosingSilent | internal/dispatcher/dispatcher.go:171-186 | whatever fails, a closing tick leaves a subscription alone that was not counted as told, was told of the end, or does not want to know; one-shot or not |
| Reasons.ToldInOrder | internal/dispatcher/dispatcher.go:176-221 | over every run, whatever fails, a repeat or resolution comes after a firing message about the incident, for every recurring subscription and every one-shot one whose last row is not pruned |
| Reasons.OnlyWanted | internal/dispatcher/dispatcher.go:182-223 | over every run, whatever fails or is pruned, resolutions only with notifyOnResolve and repeats only with a repeat interval |
| Reasons.HeardExactly | internal/dispatcher/dispatcher.go:261-270 | whatever fails or is pruned, who is counted as told was sent a firing message iff there is a binding and, for a one-shot subscription, no row was kept when the count began, or one was sent before |
| Reasons.ResolvedHeardExactly | internal/dispatcher/dispatcher.go:176-184 | each resolution is about an incident counted as told; that iff for the firing message before it |
| Reasons.CalmResolvedHeardExactly | internal/dispatcher/dispatcher.go:176-184 | without failing calls a resolution comes after a firing message iff the subscription is recurring or no row of it was kept when the count began |
| OneShotDue.TickSendsDue | internal/dispatcher/dispatcher.go:162-270 | a tick sends a listening subscription, one-shot or not, exactly the batch its history calls for, a one-shot one only without a row kept |
| OneShotDue.EventSendsDue | internal/dispatcher/dispatcher.go:78-270 | the same at every event of every run without failing calls, prunes included, for rules listened to or not |
| OneShotDue.FirstDueIsFiring | internal/dispatcher/dispatcher.go:176-221 | what the histories call for first is a firing batch |
| OneShotDue.OneShotRefinesReference | internal/dispatcher/dispatcher.go:254-270 | without prunes all a one-shot subscription is ever sent is nothing before, and afterwards exactly, the first batch that any of its rules' histories calls for |
| StoredRows.ErrorStored | internal/eval/eval.go:189-203 | once saved, an error is read back with its message and time, state, incident, start and value kept, or a fresh OK state after a failed read; a failed save changes nothing |
| StoredRows.ShowsTheLatest | internal/eval/eval.go:195-201 | over every run the live state shows the time of the latest evaluation, the value of the latest that succeeded and the message of the latest that failed |
| StoredRows.RowsMirrorMessages | internal/dispatcher/dispatcher.go:315-339 | in every run, whatever fails or is pruned, audit rows record different sent messages, in order, each with its recipient and a new id, and ok iff its message was accepted |
| OneShotPromise.BatchGoesOut | internal/dispatcher/dispatcher.go:197-221 | from every initial store some run sends a one-shot subscription its whole batch |
| OneShotPromise.AtMostOneExactly | internal/dispatcher/dispatcher.go:254-260 | every run without prunes sends at most one notification iff there is at most one eligible binding |
| OneShotPromise.SuccessExactly | internal/subscriber/subscriber.go:42-50 | in every run without prunes something sent means something accepted iff some eligible binding is on a channel that always accepts, or none is eligible |
| OneShotRuns.TwoMessages | internal/dispatcher/dispatcher.go:287-340 | a tick that sends a one-shot subscription two messages |
| OneShotRuns.FailedBatchClosesGate | internal/store/store.go:104-111 | a run whose only send fails and in which nothing is sent when the next incident opens |
| OneShotRuns.PruneRearms | internal/store/sqlite/sqlite.go:536-543 | a run in which a prune lets a second batch through |
| OneShotRuns.EndWithoutBeginning | internal/dispatcher/dispatcher.go:176-190 | a run in which a one-shot subscription is sent the resolution of an incident it was never told of |
| Machine.TickAlone | internal/dispatcher/dispatcher.go:78-153 | the small steps of a tick, run alone, are the tick, failures included |
| Machine.ErrorAlone | internal/eval/eval.go:189-203 | likewise the error path of the scheduled evaluator |
| Underway.FinishKept | internal/dispatcher/dispatcher.go:145-350 | no step of a tick changes what the tick will have told a subscription by its end |
| Safety.WorkKeeps | internal/eval/eval.go:97-123 | a step of one goroutine keeps the invariant of every rule |
| Safety.ReassignKeeps | internal/eval/eval.go:72-109 | so does moving a rule to the other evaluator while neither is working on it |
| Safety.DeleteKeeps | internal/retention/retention.go:131-135 | a prune in the middle of ticks keeps it |
| Safety.Always | internal/eval/eval.go:97-165 | the invariant holds after every interleaving, whatever fails |
| Guarantees.FiringNamesAnId | internal/dispatcher/dispatcher.go:97-117 | whatever fails, a stored live state is FIRING iff it names an incident |
| Guarantees.UnresolvedAccounted | internal/dispatcher/dispatcher.go:114-137 | whatever fails, the unresolved incidents of a rule are exactly: the live one, the one being closed, those whose resolve failed, and those lost to a failed read |
| Guarantees.InsertedOnce | internal/dispatcher/dispatcher.go:106-130 | whatever fails, no incident id is inserted twice |
| Guarantees.ToldResolvedOnce | internal/dispatcher/dispatcher.go:171-190 | whatever fails, at most one resolved batch per (incident, subscription) |
| Guarantees.SentIsLogged | internal/dispatcher/dispatcher.go:287-340 | under every interleaving and whatever fails, each message sent belongs to a batch in the record |
| Guarantees.ResolvedMessagesAreOneBatch | internal/dispatcher/dispatcher.go:171-190 | so all messages that tell a subscription of the end of an incident are of one batch |
| Guarantees.NothingFailed | internal/dispatcher/dispatcher.go:119-137 | without failing calls no insert or resolve ever fails, so nothing is left over |
| Guarantees.InterleavingSafety | internal/eval/eval.go:97-165 | without failing calls every rule has at most one unresolved incident, and FIRING names it except between the live-state upsert and the insert |
| Interleaved.OwnStepFaithful | internal/dispatcher/dispatcher.go:78-153 | each step of a tick of the rule keeps the store, together with what the tick has still to do, a summary of the history |
| Interleaved.OtherStepTold | internal/dispatcher/dispatcher.go:78-153 | a step of a tick of another rule does not reach the incidents of this one |
| Interleaved.ConcernNotPruned | internal/retention/retention.go:131-135 | a prune takes no incident that a timely tick of the rule is concerned with |
| Interleaved.InterleavedRefinement | internal/eval/eval.go:97-165 | under every interleaving without failing calls and late ticks, the completed ticks of a rule have sent a recurring subscription exactly what the history calls for |
| Archive.StepGrowsBelow | internal/dispatcher/dispatcher.go:119-137 | a step leaves the incidents below a cutoff alone and adds just the one a late tick closes |
| Archive.DeletedExactly | internal/retention/retention.go:102-131 | under every interleaving a delete removes exactly the offered incidents and those late ticks closed since the listing; the incidents agree iff there was none |
| Archive.DeletedRowsExactly | internal/retention/retention.go:116-131 | if every fetch succeeded, everything deleted, rows included, was offered iff no late tick closed an incident and no row was recorded for one after it was offered |
| Archive.ArchiveEqualsDelete | internal/retention/retention.go:102-131 | with no late tick under way and every fetch succeeding, incidents and audit rows deleted are exactly those offered |
| LateTick.LateTickEscapes | internal/retention/retention.go:102-104 | a run, from an empty store and without failures, that deletes an incident it never offered |
| Retention.Pruner.constructor | internal/retention/retention.go:53-70 | the given store, window and archiver, with nothing archived yet |
| Retention.Pruner.ArchiveOne | internal/retention/retention.go:118-128 | one candidate as stored, with its rows, or none if they cannot be read |
| Retention.Pruner.ArchiveAll | internal/retention/retention.go:116-130 | every candidate once and in order, as stored, with its rows, or none if they cannot be read |
| Retention.Pruner.ArchiveAndDelete | internal/retention/retention.go:116-135 | the delete comes after the archiving and its failure leaves the store as it is |
| Retention.Pruner.RunOnce | internal/retention/retention.go:105-138 | a pass deletes exactly what was resolved before the cutoff, having offered each once, by resolution time; a failed listing or delete changes nothing |
| Windows.KeptIsSuffix | internal/eval/window.go:51-67 | the buffer is the full history of its key without a prefix of samples at or before now - span |
| Windows.PruningInvisible | internal/eval/window.go:143-157 | for a window shorter than the span a read equals the filter over everything ever observed, in arrival order, even for samples out of order |
| Windows.ExactExactlyBelowSpan | internal/eval/window.go:51-67 | that holds for all histories iff the window is shorter than the span or there is no span |
| Windows.LongWindowSandwich | internal/eval/window.go:51-67 | a longer window still holds every sample newer than now - span, and only samples of the filter, in order |
| Windows.LongWindowInOrder | internal/eval/window.go:143-157 | for samples in time order it holds exactly those newer than now - span |
| Windows.InWindowConcat | internal/eval/window.go:149-156 | reading a window keeps or drops each sample by its own time, in order |
| Windows.KeyInjective | internal/eval/window.go:45 | unless the input names clash, a shared key means the same input and field |
| Windows.KeysMeetExactly | internal/eval/window.go:45 | two inputs have a buffer in common iff one name followed by a slash is a prefix of the other followed by a slash |
| Windows.SlashFreeApart | internal/eval/window.go:45 | different names without a slash never clash, and some with one do not either |
| Windows.ClashMixes | internal/eval/window.go:148 | for any two clashing inputs, one observation of one is read as a sample of the other |
| Windows.FullIsFieldSamples | internal/eval/window.go:37-49 | the history of a key is that of its input and field if no other observed input clashes with it |
| Windows.InputsApartExactly | internal/eval/window.go:37-49 | for any set of inputs, every field of every one reads only its own samples, whatever is observed, iff no two names clash |
| Windows.AggregatesOrdered | internal/eval/window.go:80-130 | minimum <= average <= maximum and sum = average * count |
| Windows.SumConcat | internal/eval/window.go:92-102 | a sum is additive over concatenation and of one sample is its value |
| Thresholds.EvalThreshold | internal/rule/condition.go:119-129 | a missing record is an error, a missing or non-numeric field does not trigger, and each operator compares the number with the constant as written |
| WindowRules.WindowBuffers.constructor | internal/eval/window.go:28-33 | empty buffers |
| WindowRules.WindowBuffers.Prune | internal/eval/window.go:51-67 | drops, from every buffer, the prefix up to the first sample after the cutoff |
| WindowRules.WindowBuffers.Observe | internal/eval/window.go:37-49 | every numeric field of the record is appended to its buffer, others ignored |
| WindowRules.WindowBuffers.Samples | internal/eval/window.go:143-157 | the samples of the window; for a short window the filter over the full history |
| WindowRules.WindowBuffers.EvalWindow | internal/rule/condition.go:180-207 | over the observations of that input and field: a maximum exceeds the constant iff some sample does, a minimum iff all do, sums and averages by the sum, counts by the number; each operator in those terms |
| WindowRules.WindowRuleMeaning | internal/rule/condition.go:180-207 | pruned buffer and full observation history decide every window rule alike |
| WindowRules.TriggeredAsAsked | internal/rule/condition.go:66-82 | each operator asks of the samples what its sign says, for every aggregate, without computing it |
| WindowRules.ExtremesMean | internal/rule/condition.go:188-206 | maximum and minimum rules with each ordering operator in terms of some or all samples |
| WindowRules.AvgOf | internal/eval/window.go:80-90 | the mean, or nothing for an empty window |
| WindowRules.SumOf | internal/eval/window.go:92-102 | the sum, or nothing |
| WindowRules.MinOf | internal/eval/window.go:104-116 | an element that no element is below, or nothing |
| WindowRules.MaxOf | internal/eval/window.go:118-130 | an element that no element is above, or nothing |
| WindowRules.Aggregate | internal/rule/condition.go:188-204 | the aggregate chosen by the condition; only a count exists for an empty window |
| WindowRules.Select | internal/eval/window.go:149-156 | the samples not before the cutoff, in order |
| Scheduler.ScheduledEvaluator.constructor | internal/eval/eval.go:144-148 | nothing evaluated yet |
| Scheduler.ScheduledEvaluator.OnTick | internal/eval/eval.go:154-162 | a wake-up evaluates exactly the rules whose schedule has elapsed since their last evaluation |
| Scheduler.SpacedApart | internal/eval/eval.go:155-160 | any two evaluations are their distance times the schedule apart |
| Scheduler.EvaluationsInInterval | internal/eval/eval.go:155-160 | at most floor(length / schedule) + 1 evaluations in any interval |
| Scheduler.NeverLongOverdue | internal/eval/eval.go:144-165 | after every wake-up the last evaluation is less than one schedule ago |
| Scheduler.NoLongGap | internal/eval/eval.go:144-165 | for wake-ups at most d apart consecutive evaluations are less than schedule + d apart |
| Engine.InStepExactly | engine/engine.go:271-304 | a rule API call keeps the cache equal to a rebuild iff it is not one of the two unguarded updates |
| Engine.CallMeaning | engine/engine.go:271-304 | a call that goes through leaves exactly its rule stored, cached if enabled and compiling; after a delete the id is in neither store nor cache |
| Engine.CallSparesOthers | engine/engine.go:271-304 | every other id keeps its entries |
| Engine.CallRefused | engine/engine.go:271-304 | failing and invalid calls and clashing creates change nothing |
| Engine.LastCallDecides | engine/engine.go:271-304 | after any sequence an id is stored iff the last call that went through for it was not a delete, and then with that call's rule; without any it is as before |
| Engine.StaysSound | engine/engine.go:251-304 | every stored rule is named, has an input and if scheduled a positive schedule; every cached one is enabled and compiled from its own condition |
| Engine.CacheEqualsRebuild | engine/engine.go:235-304 | over every sequence of creates, deletes and proper updates, failing or not, the cache equals a rebuild from the store |
| Engine.EvaluatorsSeeTheStore | internal/eval/eval.go:55-77 | after such a sequence the evaluators see exactly the enabled, compilable stored rules for an input or for the schedule |
| Engine.ReloadExactly | engine/engine.go:235-249 | a reload brings the cache in step iff nothing cached is stale |
| Engine.RuleEngine.constructor | internal/eval/eval.go:34 | an empty cache |
| Engine.RuleEngine.CompileAndCache | engine/engine.go:251-258 | a rule that compiles replaces its entry; otherwise the cache is unchanged |
| Engine.RuleEngine.ReloadAll | engine/engine.go:235-249 | the loop adds exactly the enabled rules that compile |
| Engine.RuleEngine.Create | engine/engine.go:271-282 | store, cache and error literally: a valid rule under a new id is added, and cached if enabled and compiling; otherwise nothing changes |
| Engine.RuleEngine.Update | engine/engine.go:284-296 | store, cache and error literally: the stored rule is replaced, the cache entry replaced if enabled and compiling, removed if disabled |
| Engine.RuleEngine.Delete | engine/engine.go:298-304 | the id is in neither store nor cache unless the call fails, which changes nothing |
| Engine.RuleEngine.ByInput | internal/eval/eval.go:55-65 | each enabled cached rule of the input, once |
| Engine.RuleEngine.ScheduledRules | internal/eval/eval.go:67-77 | each enabled cached scheduled rule, once |

## Left out

- Channel senders: network calls. A send succeeds or fails arbitrarily and its error text is not kept.
- SQL text, drivers, migrations and the postgres and mysql stores: one set of tables with the sqlite behaviour; a call fails as a whole and without effect, and the two queries of `ListForRule` are one call.
- Storage.Store.Record: the error text of an audit row is not kept, and a clash of its id with an existing row is not an error here; ids of rows and incidents come from one counter, so there is none.
- Storage.Store.ListForIncident: rows come in insertion order, while the code orders them by time sent; with a clock that does not run backwards the two agree up to ties.
- Order in which subscriptions of one kind and cached rules are visited: as they are stored, or no particular one.
- Deleting or renaming rules, subscriptions and subscribers during a serial run: serial runs keep them fixed. The concurrent machine replaces subscriptions and subscribers at any time.
- HTTP API, tokens, OpenAPI, CSV export, UI, CLIs and configuration: plumbing around the core.
- Stream, scrape and event inputs: the sequence of records is taken as given.
- Expression, pattern and SQL conditions, condition JSON and duration strings: decided by libraries outside this model; such a condition only has a mode and compiles or not.
- The text of the compared values: an outcome and its value are inputs of a tick.
- The loop of the push evaluator as a method: it adds no state of its own. Its ticks are steps of the concurrent machine.
- Tracing, logging, severities, descriptions and creation times: no effect on the modelled state.
- Floating point: samples are reals; NaN and rounding are not modelled. Durations are unbounded integers without saturation.
- Two goroutines ticking the same rule at once: a rule belongs to one evaluator, as its mode decides, and is moved to the other only while no tick of it is under way.
- One-shot label subscriptions under concurrent ticks: the gate is checked and the row recorded in separate store calls, so the one-shot results are about serial runs.
- Safety.Always: a send and its audit row are one step of the concurrent machine, and lists of subscriptions are read in one step.
- Refinement.DispatcherRefinesReference: about recurring subscriptions, a rule whose definition stays the same, and runs without failing store calls; with failures the code does not keep it, since a lost counter repeats a batch.
- WindowRules.WindowBuffers.EvalWindow: missing helpers are an error in the code; here the helpers are the receiver.

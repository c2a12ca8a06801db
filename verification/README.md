# Watchtower replay model

Watchtower replays a stream of timestamped contact-centre events through rules whose conditions must
hold for a configured duration, and turns what qualifies into alerts and notifications. This project
models that deterministic core in Dafny and proves what it promises. `dafny verify dfyconfig.toml`
checks all of it.

How the parts fit together, bottom up:

- **Identity** (`Bytes`): length-prefixed, hexadecimal identifiers and why they never collide.
- **The condition machine** (`Conditions`, `ConditionReducer`): each key moves through inactive,
  triggering, active and clearing under a logical clock, with timers, attempts, an observation fence
  and an episode table. `Conditions` gives each operation as a function on the machine's state; the
  class `ConditionReducer.Reducer` updates its fields as the source does and each method is proved
  to compute that function. What the functions mean is proved about whole runs: histories and
  episodes (`ConditionHistory`), the stale-timer fence (`ConditionRuns`), time order, qualification
  and fulfilment (`ConditionTiming`), splitting an advance (`ConditionLaws`), whose evidence a
  transition reports (`ConditionEvidence`), and independence of keys (`ConditionIsolation`).
- **Rules** (`Durations`, `Rules`, `RulePlans`): durations, validation, compilation to a flat
  conjunction and three-valued evaluation.
- **The runtime of many rules** (`EvaluationMerge`, `Evaluation`, `EvaluationRuntime`): due timers of
  all rules fire in one global order. The merge theorem says this refines each rule's own advance
  and that the synchronising pass after it adds nothing.
- **Alerts and notifications** (`Alerts`, `Notifications`) and **projections** (`Projections`).
- **The durable protocols** (`TimerWork`, `DeliveryWork`): leases, generations and fences over the
  tables, under any interleaving of workers, tokens and clocks. Each transaction is one atomic step.
- **The whole replay** (`Pipeline`, `PipelineStream`, `PipelineCoupling`, `PipelineRuns`,
  `PipelineIntake`, `SourceAgreement`, `Preview`): `Preview.Replay` drives the runtime, the alert
  reducer and the planner line by line and is proved to compute `Pipeline.ProcessAll`; about that
  function the end-to-end theorems are proved for every rule set and every file.
- **Why a replay commits what it commits** (`ReplayTrace`, `ReplayQualification`, `ReplayStart`): each
  rule's machine in a replay is a run of the condition machine, so qualification and fulfilment hold
  of replays in terms of the events of the file, and so does how far an interval may reach back.
- **What it all means outside the model** (`ConditionTable`, `FileEvidence`, `ReplayMeaning`,
  `ReplayFulfilment`, and the `...Means` lemmas): phases, orders, comparisons, views and
  notifications stated in the fields of configurations, events and definitions, down to "this
  notification was earned by that event" and "what is true long enough commits".

Time is a natural number, with 0 for the source's unset instant; durations are naturals. Maps that
the source walks in arbitrary order are walked in arbitrary order here and then sorted. A resolver,
an evidence provider and the rows a database would pick are parameters.

## What turned out not to hold

Each of these fails on a concrete input, and its exact condition is proved.

- "A `Fire` leaves nothing overdue": it moves the clock even when it rejects its timer
  (`ConditionTiming.FireCanLeaveTimersOverdue`). Exactly when it does: `ConditionTiming.FireSettled`.
- "Keys of one reducer do not interfere": they do when one reuses an observation identity first used
  by another (`ConditionIsolation.SharedIdentityInterferes`). Exactly when a key's observations are
  accepted as if it were alone: `ConditionIsolation.AgreeExactly`, and then it behaves as if alone
  (`ConditionIsolation.KeysDoNotInterfere`). The runtime's own identities never collide
  (`Evaluation.ObservationIDInjective`).
- "A closed episode never contributes again": it does when it was used with two series
  (`Alerts.TwoSeriesStrand`). Exactly when: `Alerts.ClosedExactly`.
- "A rule sees the wait a snapshot reports": the product is taken in 64 bits without a check, and what
  is not a duration of at most a year is dropped (`Pipeline.HugeWaitReadsZero`). Exactly what a rule
  sees: `Pipeline.QueueEvidence` and `Pipeline.WaitFaithful`.
- "A trigger means the rule was seen to hold since its start": the start may lie before the first True
  evaluation, by an onset on record (`ReplayStart.OnsetReachesBack`) or by a late event
  (`ReplayStart.LateEventReachesBack`). Each transition of a replay is earned by exactly one event, the
  one that started its attempt (`ReplayQualification.QualifiedOnce`), and the whole interval was
  observed exactly when that event was on time (`ReplayStart.ObservedExactly`,
  `ReplayStart.ReplayObserved`).
- The comment on evidence (`internal/evaluation/runtime.go:25-29`) says the onset is set only when the
  complete predicate is known to have held since. The replay's provider takes it from the adherence
  record of the subject's name, whatever the rule compares: `ReplayStart.OnsetReachesBack` is an
  input. `ReplayStart.OnsetMovesStart` says exactly when the onset makes a difference to the start, and
  `ReplayStart.StartIsEvaluation` when the start is the evaluation itself. The model follows the code.

## Model

| member | source | states |
|---|---|---|
| `Bytes.CanonicalPartsInjective` | internal/conditions/conditions.go:466-474 | The length-prefixed encoding is uniquely decodable: no two lists of strings share an encoding |
| `Bytes.WriteParts` | internal/conditions/conditions.go:466-474 | The builder loop writes exactly that encoding, part by part |
| `Bytes.StableIDInjective` | internal/conditions/conditions.go:466-480 | Equal prefixed hexadecimal identifiers have equal prefixes and encode equal lists |
| `Bytes.LessMeans` | internal/conditions/conditions.go:379-397 | Texts compare by their first differing byte, and a proper prefix comes first: the order all canonical orders are built on |
| `Conditions.TransitionIDInjective` | internal/conditions/conditions.go:412-415 | A transition identifier determines its key, its direction and its sequence number |
| `Conditions.EpisodeIDInjective` | internal/conditions/conditions.go:412-415 | An episode identifier determines its key and its sequence number |
| `Conditions.LessKeyMeans` | internal/conditions/conditions.go:379-397 | Keys are ordered by rule, revision, subject kind and subject, in that order, if and only if `LessKey` says so |
| `ConditionReducer.Reducer.Timers` | internal/conditions/conditions.go:367-397 | Whatever order the map is walked in, the list holds exactly the pending timers, in strict canonical order |
| `ConditionReducer.Reducer.Commit` | internal/conditions/conditions.go:406-437 | One commit moves the tracker, the episode table and the journal exactly as `Conditions.Commit`, about which the history lemmas speak |
| `ConditionReducer.Reducer.Advance` | internal/conditions/conditions.go:302-331 | The loop over the sorted timer list terminates and computes `Conditions.AdvanceTo`, the repeated firing of the least due key |
| `ConditionReducer.Reducer.Fire` | internal/conditions/conditions.go:338-365 | A claimed callback commits exactly when key, attempt, phase and canonical due time all match; it moves the clock either way |
| `ConditionReducer.Reducer.Start` | internal/conditions/conditions.go:272-291 | Arming starts at the proven onset when there is one not after the evidence, and commits at once when already due |
| `ConditionReducer.Reducer.Apply` | internal/conditions/conditions.go:212-270 | Fence, then advance, then evidence, exactly as `Conditions.ApplyTo`; every early return leaves the state that function leaves |
| `ConditionReducer.Reducer.Absorb` | internal/conditions/conditions.go:236-270 | The evidence half: arm, cancel or only record, per direction and phase |
| `ConditionRuns.InvRun` | internal/conditions/conditions.go:212-437 | Over any mix of Apply, Advance and Fire, every key keeps a chronicle (alternating from Trigger, a clear carrying its trigger's episode, times not decreasing, attempts strictly growing), its tracker agrees with it, and the episode table is the one the journal implies |
| `ConditionHistory.InvCommit` | internal/conditions/conditions.go:406-437 | A commit of a key that is ready for it keeps that invariant |
| `ConditionHistory.EpisodeTable` | internal/conditions/conditions.go:423-434 | In any reachable state the triggers of the journal and the rows of the episode table correspond one to one, each row closed by the next entry of its key if there is one |
| `ConditionHistory.RowMeaning` | internal/conditions/conditions.go:102-111 | A closed episode does not close before it opened; an open one belongs to an active or clearing key whose tracker carries its identifier |
| `ConditionHistory.OneOpenEpisode` | internal/conditions/conditions.go:406-437 | A key has an open episode if and only if it is active or clearing, and it is the tracker's |
| `ConditionHistory.DrainExact` | internal/conditions/conditions.go:310-331 | An advance fires exactly the due timers, each once, at its own due time, in strict canonical order |
| `ConditionHistory.DrainFired` | internal/conditions/conditions.go:310-331 | It leaves every other tracker, the fence and the clock alone, journals what it emits, and leaves nothing due |
| `ConditionRuns.AbsorbTracker` | internal/conditions/conditions.go:236-291 | What evidence does to its key's tracker in each phase, and that no other tracker moves |
| `ConditionRuns.StaleTimerNeverFires` | internal/conditions/conditions.go:338-365 | A timer snapshot that has fired or been cancelled never commits through Fire, after any further run including any re-arming |
| `ConditionRuns.SpentPerform` | internal/conditions/conditions.go:256-281 | No call commits anything for a spent attempt |
| `ConditionRuns.GoneIsSpent` | internal/conditions/conditions.go:252-291 | A pending timer that is no longer pending after a run is spent, and firing it commits nothing after any further run |
| `ConditionTiming.RunTimed` | internal/conditions/conditions.go:212-331 | Over any run of Apply and Advance, late evidence included, commit times do not decrease, never pass the clock, and no timer is left overdue; the journal is the concatenation of what the calls returned |
| `ConditionTiming.FireSettled` | internal/conditions/conditions.go:338-365 | After one Fire nothing is overdue if and only if every timer due by its clock is the one it accepts |
| `ConditionTiming.FireCanLeaveTimersOverdue` | internal/conditions/conditions.go:342-346 | A concrete pair of timers where firing one leaves the other overdue |
| `ConditionTiming.CommitsQualify` | internal/conditions/conditions.go:232-291 | Every commit of a run fires a timer that a call of the run started: a True observation of its key and direction that took the committed attempt, undenied until the commit; a trigger is due the configured trigger duration after its start, a clear the clear duration, and commits at or after that |
| `ConditionTiming.ArmedOnce` | internal/conditions/conditions.go:278-281 | Two calls of a run that start the same attempt of a key are one call and start one timer, so no arming is behind two commits |
| `ConditionTiming.TimerFate` | internal/conditions/conditions.go:222-291 | One Apply or Advance commits a pending timer at its due time once the clock reaches it, before that call's own evidence; otherwise it keeps it unless denied |
| `ConditionTiming.TimerFulfilled` | internal/conditions/conditions.go:302-331 | An armed timer not denied in time stays pending until the call that brings the clock to its due time, and that call commits it |
| `ConditionTiming.AttemptCommitsOnce` | internal/conditions/conditions.go:278-281 | No attempt of a key commits twice in any run |
| `ConditionTable.ClockMoves` | internal/conditions/conditions.go:212-235 | Each call moves the clock to the later of what it was and the call's own instant: for an accepted observation its processing time, or its effective time when it has none |
| `ConditionTable.AcceptedExactly` | internal/conditions/conditions.go:212-231 | Over any run an observation is accepted if and only if its key is of the rule, it carries an instant, and no earlier accepted call carried its identity |
| `ConditionTable.TimePasses` | internal/conditions/conditions.go:302-331 | Time alone makes a triggering key active after the trigger duration and a clearing key inactive after the clear duration, both counted from its start, and changes no other key |
| `ConditionTable.EvidenceDecides` | internal/conditions/conditions.go:236-291 | For each direction, phase and result: the next phase, the start, and whether a transition commits at the clock, due the trigger duration or the clear duration after the claimed start |
| `ConditionTable.FireExactly` | internal/conditions/conditions.go:338-365 | A callback commits if and only if it is the key's pending timer and due at the clock it is given; a pending timer is due its own direction's duration after the start |
| `ConditionLaws.AdvanceSplits` | internal/conditions/conditions.go:302-331 | Advancing to t1 and then to t2 gives the same transitions in the same order and the same state as advancing to t2, up to the recorded processing time |
| `ConditionEvidence.TransitionsCarryEvidence` | internal/conditions/conditions.go:240-250 | Every transition of a run reports the effective time, evidence time and reason of its key's latest accepted observation, or of the one the emitting call applies |
| `ConditionIsolation.KeysDoNotInterfere` | internal/conditions/conditions.go:212-331 | Unless the fence drops an observation of a key for an identity only another key has used, that key's transitions and state in a many-key run are those of a reducer that saw only its observations and the others' clock steps; other keys may reuse what it has used |
| `ConditionIsolation.AgreeExactly` | internal/conditions/conditions.go:226-231 | Over any run, the shared reducer and the reducer of the key alone accept the same observations of the key if and only if the fence never drops one so |
| `ConditionIsolation.SharedIdentityInterferes` | internal/conditions/conditions.go:226-231 | A concrete pair of observations sharing an identity across keys, where the second key's commit is lost |
| `ConditionIsolation.ViewEpisodes` | internal/conditions/conditions.go:439-452 | The episodes seen from one key are exactly the reducer's episodes of that key |
| `Durations.ParseDuration` | internal/rules/types.go:20-42 | Every accepted string yields whole seconds at or below one year, so the 64-bit product does not overflow |
| `Durations.ParseAccepts` | internal/rules/types.go:20-42 | For every count and unit, which of the three errors or which value results |
| `Durations.ParseUnits` | internal/rules/types.go:20-42 | A count of seconds, minutes or hours parses to that many times 1, 60 or 3600 seconds up to a year, and to the one of two errors beyond it |
| `Durations.AcceptedIsRendered` | internal/rules/types.go:20-42 | Every accepted string is a rendered count followed by a unit |
| `Durations.DurationRoundTrip` | internal/rules/types.go:51-64 | Parsing the canonical string of any whole-second duration up to a year returns it |
| `Durations.CanonicalIdempotent` | internal/rules/types.go:51-64 | Canonicalising is defined on every accepted value, preserves it, and twice is the same as once |
| `Durations.CanonicalCoarsest` | internal/rules/types.go:51-64 | The canonical string uses a unit at least as coarse as any accepted spelling of the value |
| `Durations.PrintedUnit` | internal/rules/types.go:51-64 | Exactly the whole seconds up to a year print, in hours if they divide, else in minutes, else in seconds |
| `Rules.EvaluateAll` | internal/rules/evaluate.go:88-103 | The loop that stops at False and remembers an Unknown computes the three-valued conjunction |
| `Rules.ComparisonMeans` | internal/rules/evaluate.go:105-143 | What each of the six operators says of two integers, durations, booleans or agent states, and exactly when a comparison is Unknown |
| `Rules.ResolveMeans` | internal/rules/evaluate.go:145-176 | An operand resolves if and only if it is a constant or one of the nine fields, known, with a value legal for that field |
| `Rules.ConjunctionMeans` | internal/rules/evaluate.go:88-103 | False if and only if some comparison is False; True if and only if all are True |
| `Rules.ConjunctionOrder` | internal/rules/evaluate.go:88-103 | Neither the order nor the repetition of comparisons matters |
| `Rules.KnowledgeMonotone` | internal/rules/evaluate.go:145-176 | Learning more fields never changes a True or a False |
| `Rules.FlattenMeaning` | internal/rules/compile.go:153-176 | Compiling to a flat conjunction preserves the three-valued meaning of the whole tree |
| `Rules.ValidateOperand` | internal/rules/validate.go:189-223 | An operand is reported if and only if it is not a known, well-formed operand of the subject; the type returned is its type |
| `Rules.OperandMeans` | internal/rules/validate.go:189-223 | Exactly which fields and constants a rule on a queue or an agent may use, and the type of each |
| `Rules.ValidateCompare` | internal/rules/validate.go:175-187 | A comparison is reported if and only if an operand, the pairing of types or the operator is wrong |
| `Rules.OperatorMeans` | internal/rules/validate.go:175-187 | Waits and counts may be ordered, flags and states only compared for equality, and only operands of one type compared |
| `Rules.ValidateExpression` | internal/rules/validate.go:128-173 | Nothing is reported if and only if the expression is a comparison or a small enough, non-empty, flat conjunction of valid ones |
| `Rules.ValidatedIsDecided` | internal/rules/evaluate.go:88-176 | A validated expression under a complete, well-typed lookup is never Unknown |
| `RulePlans.Validate` | internal/rules/validate.go:59-123 | A definition is rejected if and only if it breaks one of the listed conditions |
| `RulePlans.CanonicalIDs` | internal/rules/compile.go:136-151 | Sorting and compacting in place gives exactly the given identifiers, strictly sorted |
| `RulePlans.Compile` | internal/rules/compile.go:52-94 | Compilation succeeds if and only if the definition is valid and its groups resolve; the plan selects exactly the named and configured subjects and pins each configured group once, at the revision and with the members the resolver answered |
| `RulePlans.PlanMeans` | internal/rules/compile.go:52-112 | A compiled plan selects exactly the named subjects and the members of its groups, and pins each group once, at the revision and with the members resolved |
| `Evaluation.ObservationIDInjective` | internal/evaluation/runtime.go:368-377 | An observation identifier determines its occurrence, key and direction |
| `Events.ValidateOccurrence` | internal/app/contracts.go:39-77 | The checks in source order accept exactly the well-formed occurrences |
| `Evaluation.NewEvaluationResult` | internal/app/contracts.go:178-199 | The result constructor accepts if and only if every observation is acceptable and identities are distinct; it returns a sorted permutation, and a strictly sorted list unchanged |
| `Evaluation.ValidateObservation` | internal/app/contracts.go:206-235 | The checks of one observation in source order accept exactly what the result contract allows |
| `Evaluation.ObserveSorted` | internal/evaluation/runtime.go:226-247 | What evaluation produces is in strict canonical order and comes only from rules that select the subject |
| `Evaluation.LessObservationMeans` | internal/evaluation/runtime.go:387-405 | A result is ordered by rule, revision, subject kind, subject, trigger before clear, then identity |
| `Evaluation.ObservesBoth` | internal/evaluation/runtime.go:226-247 | The observations of an occurrence are exactly one per selecting rule and direction, with the outcome of the rule's own condition of that direction, its onset, and the occurrence's instants |
| `Evaluation.FromRuleOK` | internal/app/contracts.go:206-235 | An observation evaluation produces meets the result contract if and only if the source event is not named like it and the subject is named |
| `Evaluation.EvaluationApplies` | internal/evaluation/runtime.go:294-329 | Whatever evaluation produces at a clock passes every check of Apply at that clock |
| `EvaluationRuntime.NewEvaluationRequest` | internal/app/contracts.go:139-163 | The request constructor accepts if and only if the occurrence is well formed, not after the clock, and the rules are valid and distinct; it returns them in canonical order |
| `EvaluationRuntime.Runtime.Activate` | internal/evaluation/runtime.go:87-132 | All or nothing: it fails if and only if some rule is unnamed, has no positive revision, does not compile, or is listed twice; otherwise exactly the listed rules are active, compiled, in canonical order, on new reducers |
| `EvaluationRuntime.Runtime.NextDue` | internal/evaluation/runtime.go:172-186 | It finds nothing if and only if no reducer has a due timer; otherwise the smallest due timer of all |
| `EvaluationRuntime.Runtime.Advance` | internal/evaluation/runtime.go:145-170 | Refused if and only if the instant is zero or before the clock, changing nothing; otherwise both loops terminate and compute `EvaluationMerge.AdvanceAll` |
| `EvaluationMerge.AdvanceAllMerges` | internal/evaluation/runtime.go:142-170 | The synchronising pass emits nothing; each rule revision ends where its own Advance would have left it and has emitted exactly what that Advance returns; the whole output is in strict canonical order and fires only timers due at the start |
| `EvaluationMerge.AdvanceOrder` | internal/evaluation/runtime.go:188-205 | Of any two transitions of one advance the first was due earlier, or at the same instant for an earlier rule, revision, subject kind or subject, texts compared by bytes; each commits at its due time |
| `EvaluationMerge.FireNextStep` | internal/evaluation/runtime.go:154-160 | Each iteration strictly decreases the number of due timers |
| `EvaluationMerge.NextUnique` | internal/evaluation/runtime.go:188-205 | The canonical order has at most one smallest due timer |
| `EvaluationRuntime.Runtime.Evaluate` | internal/evaluation/runtime.go:210-247 | It changes nothing; refused if and only if the request is malformed, the clock differs, or an observation fails the result contract; otherwise the result is `Evaluation.Observe` |
| `EvaluationRuntime.Runtime.ValidateResult` | internal/evaluation/runtime.go:294-329 | Observations pass if and only if each is of an activated rule and selected subject, named, stamped with the clock and effective by then, identities are distinct, and they are in canonical order |
| `EvaluationRuntime.Runtime.Apply` | internal/evaluation/runtime.go:252-265 | Refused, changing nothing, if and only if those checks fail; otherwise each observation reaches its own rule's reducer, in order |
| `Alerts.Reducer.ApplyStart` | internal/alerts/alerts.go:106-133 | A start joins its series, opening it with the next generation when it was closed; unnamed, closed and repeated episodes emit nothing |
| `Alerts.Reducer.ApplyClear` | internal/alerts/alerts.go:135-165 | A clear leaves its series and, when it was the last contributor, recovers it in the same generation |
| `Alerts.Reducer.ApplyEpisode` | internal/alerts/alerts.go:97-104 | A complete episode is its start followed, when cleared, by its end |
| `Alerts.EpisodeIdempotent` | internal/alerts/alerts.go:95-104 | Applying the same episode again emits nothing and changes nothing |
| `Alerts.SeriesLife` | internal/alerts/alerts.go:106-165 | Over any calls at all, a series alternates Open and Recovery with generations 1,1,2,2,..., and is open if and only if it has contributors |
| `Alerts.OpensLead` | internal/alerts/alerts.go:106-165 | Opens exceed recoveries by one while the series is open and not otherwise |
| `Alerts.ClosedExactly` | internal/alerts/alerts.go:135-165 | Over any calls at all, no closed episode contributes at the end if and only if no call of the run was an effective clear of an episode that another series held |
| `Alerts.ClosedNeverContributes` | internal/alerts/alerts.go:106-165 | So when each episode identifier keeps to one series, a closed episode never contributes again |
| `Alerts.TwoSeriesStrand` | internal/alerts/alerts.go:135-165 | Without that, a concrete run leaves a closed episode holding another series open |
| `Alerts.AlertTransitionIDInjective` | internal/alerts/alerts.go:130-131 | An alert transition identifier determines series, generation and kind |
| `Alerts.AlertIDsDistinct` | internal/alerts/alerts.go:126-162 | No two transitions of a well-formed journal share an identifier |
| `Notifications.Planner.Plan` | internal/notifications/notifications.go:40-57 | An intent results if and only if the policy wants the transition; it is created only the first time, and replays return the stored one |
| `Notifications.IntentIDInjective` | internal/notifications/notifications.go:61-63 | An intent identifier determines the transition, its generation and its kind |
| `Notifications.DeliveryReducer.Begin` | internal/notifications/notifications.go:122-138 | Succeeds if and only if the delivery exists and is pending or failed |
| `Notifications.DeliveryReducer.Complete` | internal/notifications/notifications.go:139-158 | Succeeds if and only if the token is the current claim; every stale or duplicate callback changes nothing |
| `Notifications.DeliveryReducer.Fail` | internal/notifications/notifications.go:159-178 | The same fence; the delivery can be begun again |
| `Notifications.DeliveryFence` | internal/notifications/notifications.go:109-178 | Over any calls: every attempt but the last failed, the last shows the delivery's status, a token is held if and only if claimed, settled attempts are never rewritten, a delivered one is never touched |
| `Notifications.OneDelivered` | internal/notifications/notifications.go:139-158 | At most one attempt is ever delivered, and only the last |
| `Notifications.TokenSettlesOnce` | internal/notifications/notifications.go:139-178 | Once a token's attempt is settled, no call with it succeeds again |
| `Projections.Builder.Build` | internal/projections/projections.go:200-266 | Accepted if and only if well formed and new, or an exact repeat; rejected and repeated occurrences change nothing; a new one extends its own subject's history and no other, and live values stay the fold of their histories |
| `Projections.LiveIsLatest` | internal/projections/projections.go:392-394 | The live record is the maximum of its history by effective time, then position |
| `Projections.ViolationOnset` | internal/projections/projections.go:300-326 | The known onset is zero when not violating; else the latest explicit onset in the trailing run of violating live records, or that run's first effective time |
| `Projections.LiveAgreesWithPreview` | internal/projections/projections.go:392-394 | The builder replaces a record if and only if the new one is not before it, as the preview does |
| `Projections.QueueView` | internal/projections/projections.go:268-284 | The live view of a queue shows every value of the latest snapshot of its history, each under its own name |
| `Projections.AgentView` | internal/projections/projections.go:286-298 | The live view of an agent shows the state its latest change entered |
| `Projections.AdherenceView` | internal/projections/projections.go:300-326 | The live view of adherence shows the scheduled and actual states, the flag and the onset of the latest check |
| `Projections.RecordKept` | internal/projections/projections.go:380-391 | An admitted occurrence leaves one record, last in its subject's history, with its event and each field of its provenance, and changes no other source |
| `SourceAgreement.ReplayAgrees` | internal/runtime/preview.go:158-171 | After any replay the record used as evidence for each source and subject is the live record of its retained history |
| `SourceAgreement.Rebuild` | internal/runtime/replay.go:142-153 | The projection builder admits every event of a successful replay as a new occurrence and ends holding those very histories |
| `TimerWork.Store.ReplaceTimer` | internal/storage/work.go:26-47 | Advances the generation, cancels what was live and inserts the new row, whose generation exceeds every earlier one of the key |
| `TimerWork.Store.ClaimDueTimers` | internal/storage/work.go:49-98 | Leases any choice among the rows that are due, live and not under an unexpired lease |
| `TimerWork.Store.CompleteTimer` | internal/storage/work.go:99-106 | Succeeds if and only if row, generation, token and unexpired lease all match |
| `TimerWork.TablesAlwaysOK` | internal/storage/work.go:26-106 | Over any interleaving of steps, tokens and clocks, a live timer carries its key's current generation and generations of a key strictly grow |
| `TimerWork.OneLiveTimer` | internal/storage/work.go:34-45 | A key has at most one pending or claimed timer |
| `TimerWork.ClaimableExactly` | internal/storage/work.go:60-70 | A due row that is not settled can be claimed if and only if nobody's lease on it still runs |
| `TimerWork.SettledRowFrozen` | internal/storage/work.go:49-106 | A done or cancelled row never changes and never completes |
| `TimerWork.ReplacedNeverCompletes` | internal/storage/work.go:26-45 | Once replaced, a key's older timers never complete, leased ones included |
| `TimerWork.CompletesOnce` | internal/storage/work.go:99-106 | A completion succeeds at most once per timer and only for the current generation |
| `TimerWork.SupersededNeverCompletes` | internal/storage/work.go:99-106 | A worker whose lease was taken over under another token never completes, whatever its clock |
| `TimerWork.LapsedNeverCompletes` | internal/storage/work.go:99-106 | Once a lease has lapsed its token completes nothing at any clock from then on, taken over or not, unless someone claims with that token |
| `DeliveryWork.Store.EnsureIntent` | internal/storage/work.go:119-162 | Creates if and only if there is no row of that identity; otherwise nothing changes, and it answers the stored row if and only if the stored data is the same |
| `DeliveryWork.Store.ClaimNotificationIntents` | internal/storage/work.go:164-187 | Leases any choice among the undelivered rows not under an unexpired lease |
| `DeliveryWork.Store.BeginDeliveryAttempt` | internal/storage/work.go:189-205 | Succeeds if and only if the worker holds an unexpired lease; the attempt's number is one more than the intent's attempts |
| `DeliveryWork.Store.FinishDeliveryAttempt` | internal/storage/work.go:207-233 | Succeeds if and only if the attempt is the intent's and the lease is held; the visible delivery it inserts is never a second one |
| `DeliveryWork.OutboxAlwaysOK` | internal/storage/work.go:164-233 | Over any interleaving, an intent is delivered if and only if it has a visible delivery, and then exactly the attempt that names it succeeded; only a claim holds a lease |
| `DeliveryWork.NumbersExact` | internal/storage/work.go:196-203 | The attempts of an intent are numbered 1..n: each number in the range is taken, by exactly one attempt |
| `DeliveryWork.ClaimableExactly` | internal/storage/work.go:172 | An undelivered intent can be claimed if and only if nobody's lease on it still runs |
| `DeliveryWork.DeliveredForever` | internal/storage/work.go:207-233 | Delivered is absorbing: intent, visible delivery and attempts never change again and no attempt is added |
| `DeliveryWork.SupersededNeverFinishes` | internal/storage/work.go:189-233 | A worker whose lease was taken over under another token neither begins nor finishes anything again |
| `DeliveryWork.LapsedNeverFinishes` | internal/storage/work.go:189-233 | Once a lease has lapsed its token neither begins nor finishes anything at any clock from then on, taken over or not, unless someone claims with that token |
| `DeliveryWork.Store.Deliver` | internal/runtime/replay.go:292-307 | With nothing else outstanding, whichever row the database offers is the intent just created, and it ends delivered |
| `DeliveryWork.ReplayDeliversEach` | internal/runtime/replay.go:98-124 | However many intents a replay plans, each distinct one ends delivered by its single attempt |
| `PipelineStream.AdvanceStream` | internal/evaluation/runtime.go:145-170 | An advance of all rules emits in time order, strictly after the old clock and not past the new one, split over the rules' own journals |
| `PipelineStream.ApplyStream` | internal/evaluation/runtime.go:252-265 | Applying an event's observations emits only at the clock itself |
| `PipelineCoupling.StreamCoupled` | internal/runtime/preview.go:91-108 | Along any stream of condition transitions, a series' contributors are exactly the open episodes of the keys with its rule and subject, and the closed episodes exactly the cleared ones |
| `PipelineCoupling.StreamPlanned` | internal/runtime/preview.go:101-106 | The planner never collapses two alert transitions: one notification for each the policy wants, in order |
| `PipelineCoupling.AlertsExplained` | internal/runtime/preview.go:91-100 | Every opening reports the rule, subject, episode, times and revision of a trigger of the stream; every recovery those of a clear, with the revision of the trigger of its episode |
| `PipelineCoupling.WantingMeans` | internal/runtime/preview.go:101-106 | The output has one notification for each opening under a policy with onOpen and each recovery under one with onRecovery, in order, with the fields of its alert and the audience of its rule, and no other |
| `PipelineCoupling.TransitionIDsDistinct` | internal/conditions/conditions.go:412-415 | No two condition transitions of a stream share an identifier, and no two of one direction share an episode |
| `PipelineRuns.ProcessOK` | internal/runtime/preview.go:147-187 | Each event emits first what fell due after the old clock, then what its own evidence commits, all at the new clock |
| `PipelineRuns.ProcessAllOK` | internal/runtime/preview.go:147-191 | Every replay keeps what the next three rows start from: machines sound and settled, each holding its own part of one time-ordered stream, alerts and output being what that stream emits |
| `PipelineRuns.CoupledAlways` | internal/runtime/preview.go:91-108 | End-to-end coupling: the contributors of a series are exactly the open episodes of the condition keys, of any revision, with its rule and subject, and it is open if and only if some such key is active or clearing |
| `PipelineRuns.InTimeAlways` | internal/runtime/preview.go:147-199 | Transitions, alert transitions and notifications come in nondecreasing time and never pass the clock, late events included |
| `PipelineRuns.OutputAlways` | internal/runtime/preview.go:101-106 | One notification for each alert transition its policy wants, in order; condition transitions, the episodes of triggers, alert transitions and intents all have pairwise distinct identifiers |
| `PipelineRuns.KindsApart` | internal/conditions/conditions.go:476-480 | Identifiers of different kinds - transition, episode, series, alert transition, intent, claim token, observation - never collide |
| `PipelineRuns.ConditionIDsSpell` | internal/conditions/conditions.go:412-415 | Transition and episode identifiers, spelled out part by part |
| `PipelineRuns.ObservationIDsSpell` | internal/evaluation/runtime.go:368-377 | Observation identifiers, spelled out part by part |
| `PipelineRuns.AlertIDsSpell` | internal/alerts/alerts.go:200-202 | Series, alert transition, intent and claim identifiers, spelled out part by part |
| `PipelineRuns.ReplayCoupled` | internal/runtime/preview.go:91-108 | Coupling holds after every event of every replay of every rule set |
| `PipelineRuns.FinishEmitsNothing` | internal/runtime/replay.go:184-188 | When every event of the file was inserted, the advance at the end of it emits and changes nothing, so discarding what it returns loses nothing |
| `PipelineRuns.ReplayOutput` | internal/runtime/preview.go:70-201 | A whole replay, its final advance included, returns exactly the wanted notifications, in time order |
| `PipelineIntake.ReplaySucceeds` | internal/runtime/preview.go:147-191 | A replay succeeds if and only if each event is admissible on its own: neither the state reached nor the order of events can make one fail |
| `PipelineIntake.FenceDropsNothing` | internal/conditions/conditions.go:226-231 | In the replay of a file every observation of every event is accepted by its reducer |
| `ReplayTrace.TraceOf` | internal/runtime/preview.go:147-187 | Every replay that succeeds has a trace, one state before each event and the replay's own result last; the rows below speak of that trace |
| `ReplayTrace.ReplayIsRun` | internal/runtime/preview.go:147-187 | Each rule's machine in a replay is exactly a run of its own calls, and its part of the stream is what that run emits |
| `ReplayQualification.ReplayQualified` | internal/runtime/preview.go:147-187 | Every transition of a replay was earned by the event that started its attempt: about its subject, with the rule's compiled condition True on the sources then held; no later event about the subject found it otherwise before the commit, which comes no earlier than the start plus the duration |
| `ReplayQualification.QualifiedOnce` | internal/runtime/preview.go:147-187 | At most one rule and one event of a replay earn a given transition |
| `ReplayQualification.ReplayFulfilled` | internal/runtime/preview.go:147-187 | A pending timer, found True by every later event about its subject whose clock is short of the due time, is still pending at the end or has committed at its due time |
| `ReplayStart.StartIsEvaluation` | internal/runtime/preview.go:141-145 | A trigger's interval starts when its evidence is evaluated if and only if the event is not late and no earlier onset is on record |
| `ReplayStart.OnsetMovesStart` | internal/runtime/preview.go:141-145 | With no onset a trigger's interval starts at the event, and the onset on record moves that start if and only if it is earlier than the event |
| `ReplayStart.ObservedExactly` | internal/conditions/conditions.go:272-288 | The whole interval of a transition lies at or after the True evaluation of the event that earned it if and only if that event was on time |
| `ReplayStart.ReplayObserved` | internal/runtime/preview.go:147-187 | Every transition of a replay is earned by exactly one rule and event, and that event decides by that condition whether the whole interval was observed |
| `ReplayStart.FirstTrueCommits` | internal/conditions/conditions.go:282-289 | The first event to find a rule True commits at once, however short it has been True, when its start plus the duration is not past the clock |
| `ReplayStart.OnsetReachesBack` | internal/runtime/preview.go:141-145 | A concrete file and a rule compiled from a valid definition: first True at second 200, it triggers there for an interval from second 10 because of an onset the rule does not compare |
| `ReplayStart.LateEventReachesBack` | internal/runtime/preview.go:147-187 | A concrete file with no onset and a rule compiled from a valid definition: first True at second 200, it triggers there for an interval from second 50 because of a late event |
| `ReplayMeaning.TransitionEarned` | internal/runtime/preview.go:147-187 | Every transition of a replay was earned under an activated definition: an event about a subject it selects found every comparison of its trigger or clear condition True on the file so far, as did every later event about it, and it is due the definition's own duration after that event's start |
| `ReplayFulfilment.TrueLongEnough` | internal/runtime/preview.go:147-187 | The converse, for both directions: a condition an event finds True of a key that could start an interval, and every later event about it short of the due time finds True again, has its transition in the stream once the clock reaches the due time, and its timer pending until then |
| `ReplayMeaning.NotificationEarned` | internal/runtime/preview.go:70-201 | From the output back to the file: every notification is asked for by its rule's policy and reports, in its own fields, an alert at the instant and in the episode of a transition so earned |
| `Pipeline.WaitFaithful` | internal/runtime/preview.go:118-121 | A rule sees a wait's own length if and only if it is at most a year, and a wrong length if and only if it is at least 2^55 seconds and at most a year past a multiple of that |
| `Pipeline.QueueEvidence` | internal/runtime/preview.go:109-131 | Exactly what a rule sees of any decoded snapshot: counts as they are below 2^63 and not at all above, waits modulo 2^55 seconds when that is at most a year and not at all otherwise, the forecast never |
| `FileEvidence.ReplaySources` | internal/runtime/preview.go:147-171 | A replay evaluates each event on the records of the file up to and including it, at the latest time among those events |
| `FileEvidence.AgentEvidence` | internal/runtime/preview.go:132-138 | What rules know of an agent: the flag of its latest adherence check in the file, the state its latest change entered when that is one of the four, and nothing else |
| `FileEvidence.QueueKnown` | internal/runtime/preview.go:111-131 | What rules know of a queue: the six values of its latest snapshot in the file, as `Pipeline.QueueEvidence` reads them, and nothing else |
| `FileEvidence.OnsetKnown` | internal/runtime/preview.go:141-145 | The onset on record for a subject is that of the latest adherence check of its name, whatever its kind |
| `Preview.LinesDistinct` | internal/events/events.go:444-472 | Numbering the lines gives every event its own occurrence identity |
| `Preview.PoliciesMean` | internal/runtime/preview.go:74-79 | A rule's policy is that of its last configured revision, switch by switch |
| `Preview.Session.Emit` | internal/runtime/preview.go:90-108 | The emit closure turns transitions into alerts and wanted alerts into output exactly as `PipelineCoupling.EmitAll` |
| `Preview.Session.Process` | internal/runtime/preview.go:147-187 | One line: it fails if and only if the replay function does, and otherwise leaves exactly its state |
| `Preview.Replay` | internal/runtime/preview.go:70-201 | The whole replay returns exactly what the replay function returns, or nothing at all when activation or any line fails |

## Left out

- DeliveryWork.Store.FinishDeliveryAttempt: does not say attempt rows are write-once, because the source checks the intent's lease and not the attempt's own state, so a worker may overwrite an attempt it finished earlier under the same lease.
- TimerWork.Store.ClaimDueTimers: does not model which claimable rows are chosen or the order in which they are returned; any choice up to the limit is allowed, so row locks and `SKIP LOCKED` are covered only as a choice.
- DeliveryWork.Store.ClaimNotificationIntents: the same, and the returned intents are not modelled, only the rows.
- DeliveryWork.Store.EnsureIntent: the dedupe key stands for transition, audience and type together, so the second unique index of the table is not modelled separately.
- EvaluationRuntime.Runtime.Evaluate: takes the activated rules as the request's rules, as both callers pass them; the comparison of definition signatures is not modelled.
- Preview.Replay: decoding, line limits, JSON strictness and the loader of the rule file are not modelled; it starts from decoded events and rule values.
- Preview.Session.Process: on a failed line nothing is said about the state left behind, because the replay is abandoned.
- RulePlans.Compile: a group resolver is a map from identifier to snapshot, which is enough because each group is asked for once.
- Rules.ValidateExpression: says whether anything is reported and not the error paths, their order or the message text.
- Values of enumerations outside their named constants, which the source rejects before any change, cannot be written in the model's datatypes.
- Integer widths of attempt, sequence and generation counters, which the model takes as unbounded.
- Copying against aliasing, the mutex of the delivery reducer (each method is atomic here), and time zones.
- The database replay (`internal/runtime/replay.go`) beyond its final advance, its building of projections and its delivery of intents. An occurrence it does not insert moves its clock without an advance; a file with such occurrences is not modelled. It differs from the preview in keying policies by revision, in the adherence onset and in supplying the forecast field, so the two outputs are not claimed equal.
- Database identifiers, timestamps kept by the database, isolation levels, migrations, the HTTP and HTML layers, and the command line.
- Listings sorted for display (episodes, series, intents) and single-field accessors, which would add only easy members.

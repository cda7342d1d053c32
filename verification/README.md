# Trade-cycle lifecycle of a strategy runtime, in Dafny

The strategy runtime drives trading instances against an executor ("ABI") whose answers may be
lost. Each instance has one durable aggregate: an optional current trade cycle, an optional frozen
fill context inside it, and two mutually exclusive recovery markers. Six writers change it: closed
bars, the first-fill webhook, the background resolver, operator close and cancel, disable, and
delete. This project models those writers, the log they save to, the mutex that serializes them,
the intake that feeds them, and the price text every decision rests on, and proves what the whole
is for, with its exact condition: no order or position is left that the durable state does not name.

Verify with `dafny verify dfyconfig.toml`.

## How the pieces fit

**The protocol** (`Discipline`, `Safety`). One instance, the log it shares with others and its
exchange side as a labelled machine: saves, torn saves, appends of other instances, entry requests,
executor evidence, exchange moves on their own, journal records, file changes, restarts. The state
the process serves and what the log would replay to are kept apart; `Permitted` is the one rule a
save must keep. The safety theorems hold at every instant of every legal run in which no append
follows a torn tail and no appended string holds a line break. `TornTail` shows that the first
condition is needed: from every torn log one bar and a crash orphan an order.

**The writers** (`Runtime`, `Resolver`, `BarProcessing`, `Operator`). `Runtime.Instance` is the
object they share; each port call is a step of the protocol, may be preceded by moves of the
exchange, and may be cut off by a crash (`cutOff`). Every writer is proved twice: its steps are
legal (`Valid()`), and unless a port call was cut off its visible effects (calls with their answers,
saves, records, file changes, in order) and its result equal a pure plan (`BarPlans`,
`Resolver.AttemptPlan`, the plans in `Operator`). `Schedule.Play` lets any schedule of all writers
run and states what the result keeps.

**What the plans do** (`Traffic`, `EntryTraffic`, `BarTraffic`, `RecoveryTraffic`,
`OperatorTraffic`, `WriteAhead`). Every plan seen from outside: which calls leave with which
arguments, which records are written, what it ends in and what it leaves durable, each by its own
condition on state and answers; and that every save is one the store grants. `BarLaws`,
`ConfirmationLaws`, `TouchTriggerLaws`, `ReplaceChain`, `RecoveryLaws` and `OperatorLaws` prove
what follows over repeated bars, lost replies and whole commands; `Lifecycle` shows that the whole life of a trade is a
legal run, and `Witnesses` gives the concrete inputs of the findings below.

**The store** (`Codec`, `JsonText`, `JsonCut`, `StateLines`, `LineBreaks`, `LogReplay`, `LogTail`,
`LogView`, `ReplayLaws`, `OldVersions`, `Store`). The versioned envelope, what its older versions
wrote, the JSON text of RFC 8259 sections 4 and 7 character by character, the append-only log and
its replay, cut at any character. `LogTail` is the small rule of what an append does to a log,
clean, torn, glued or unreadable; `LogView` proves that rule of the text itself, for every history
of complete and cut-off appends; the protocol uses the same rule.

**Concurrency** (`KeyedMutex`, `Intake`), **lifetimes and fills** (`Lifetime`, `FirstFill`) and
**exact decimals** (`DecimalText`, `DecimalNormalize`, `Recipes`).

## Assumptions about the environment

- An answer is given only when it is true of the exchange. "Absent", "closed", "closure" and
  "terminal" mean that the cycle has no live order, no position and no request that can still land;
  "declined" and "not ready" for an apply mean the same (`Effects.EntryEvidence` and its siblings,
  guard of `Evidence` in `Discipline.Enabled`). Any other failure leaves the effect unknown.
- Trade-cycle ids are fresh: a bar is never offered an id that was ever stored.
- An instance id fixes its timeframe and its lifetime setting. One process writes the log.
- Somebody may end a torn last line by hand without changing what the log replays to (`Mend`;
  possible on every torn log by `LogView.MendIsPossible`). The code itself never does.

## Findings

Each is an expected property that fails, with a concrete input and the exact condition.

- Replay forgives a torn last line but leaves it in the file, so the next save is glued to it and is
  lost at the next restart, with a torn line that was complete and had been replayed; one more save
  makes the log unreadable (`LogReplay.TornTailLosesNextSave`, `TornTailThenTwoSavesCannotReplay`).
  A save is durable exactly when every line before it is complete and decodes
  (`LogView.NextSaveDurableIffHealthy`). Orders are orphaned this way: `TornTail.SomeRunOrphans` is
  such a run, `TornTail.TornTailCanOrphan` continues every run on a torn log to one, and
  `Safety.NoOrphanEver` excludes them all when no append follows a torn tail.
- A state with U+0085, U+2028 or U+2029 in one of its strings saves, and then the log cannot be
  replayed: exactly such states (`LogReplay.SaveSurvivesIffClean`), for example
  `Witnesses.SomeStateCannotBeReplayed`.
- An entry the executor declined is asked for again on every repeated bar, the only way an
  ema_anchor bar fails to converge (`BarLaws.EmaEntryConverges`, `Witnesses.DeclinedEntryIsAskedAgain`).
- After a Replace whose cancel was confirmed, the old cycle's end record is written exactly when the
  apply returns, by an exact echo of its command or a decline of it. On every other answer, in both
  modes, the cycle leaves the durable state without any end record
  (`BarLaws.ReplaceRecordedIffApplyReturns`, `ReplacedCycleIsGone`, `NotReadyReplaceLeavesNoRecord`).
- A filled but unconfirmed apply is resolved only if the fill's candle exists on the timeframe grid
  and is not before the signal bar. Otherwise every true answer leaves the marker, and every answer
  that reports the fill makes the attempt fail (`RecoveryLaws.UnfittingFillIsStuck`,
  `Witnesses.SomeFillDoesNotFit`).

## Model

| member | source | states |
|---|---|---|
| Schedule.Play | src/strategy_runtime/runtime/orchestrator/orchestrator.py:97-171 | any schedule of all writers, exchange moves, other instances' appends, lost replies, failed writes, poisoned processes and crashes: if no append followed a torn tail and none held a line break, whatever may be live is named by the durable state, at most one id may be live, the process serves what a restart would, each id has at most one opened and one terminal record, and between any two moments frozen contexts, remainder marks and packages never change and dropped ids never return; whatever became of the log, every state keeps its rules and settled ids stay dead |
| Schedule.TakeTurn | src/strategy_runtime/runtime/coordination/keyed_mutex.py:19-40 | one writer holding the instance's mutex keeps the protocol; if it was not cut off it added exactly its own plan's effects, and if it was, a restart or a process that goes on poisoned follows |
| Schedule.RunWriter | src/strategy_runtime/runtime/orchestrator/orchestrator.py:97-171 | each turn runs its own writer to its plan, unless one of its port calls is cut off |
| Schedule.LegalIsSafe | src/strategy_runtime/runtime/entry_reconciliation_orchestrator/orchestrator.py:118-177 | every instant is safe, in every run in which no append follows a torn tail or holds a line break |
| Schedule.LaterKeeps | src/strategy_runtime/runtime/first_fill/state_applier.py:44-78 | what every later instant keeps of an earlier one, in every run in which no append follows a torn tail or holds a line break |
| Schedule.LaterIsSound | src/strategy_runtime/runtime/state/models.py:132-177 | whatever became of the log, served and durable states satisfy every constructor and cross-field rule and settled ids stay dead |
| TornTail.TornTailCanOrphan | src/strategy_runtime/infrastructure/runtime_state/jsonl_repository.py:145-177 | from every run that serves a quiet instance on a log that does not end in a good line, one bar and a crash leave a live order that neither the log nor the restarted process names |
| TornTail.SomeRunOrphans | src/strategy_runtime/infrastructure/runtime_state/jsonl_repository.py:145-177 | such a run exists: a registration, a cut-off save, a restart, a bar, a crash |
| TornTail.OrphanMeansGlued | src/strategy_runtime/infrastructure/runtime_state/jsonl_repository.py:145-177 | an orphan needs an append after a torn tail or one with a line break inside |
| TornTail.EveryStopIsPossible | src/strategy_runtime/infrastructure/runtime_state/jsonl_repository.py:145-149 | wherever an append stops, the protocol has that step |
| TornTail.EveryCutHappens | src/strategy_runtime/infrastructure/runtime_state/jsonl_repository.py:145-149 | every torn-save step of the protocol is some stop of the append |
| Safety.StepKeepsInv | src/strategy_runtime/runtime/entry_reconciliation_orchestrator/orchestrator.py:118-177 | every step keeps the id facts whatever became of the log, and the whole invariant as long as the tail was kept |
| Safety.RunKeepsInv | src/strategy_runtime/runtime/entry_reconciliation_orchestrator/orchestrator.py:118-177 | the same after every legal run |
| Safety.TailKeptIffAppendsStartLines | src/strategy_runtime/infrastructure/runtime_state/jsonl_repository.py:145-149 | the flag under which the theorems hold says exactly that no append followed a torn tail and none held a line break |
| Safety.NoOrphanEver | src/strategy_runtime/runtime/uncertain_exchange_state_resolver/resolver.py:96-248 | a cycle that may have a live order, position or in-flight request is the current cycle or the pending marker of what the log replays to, in every run in which no append follows a torn tail or holds a line break |
| Safety.AtMostOneLive | src/strategy_runtime/runtime/entry_reconciliation_orchestrator/orchestrator.py:74-86 | at most one cycle id is ever possibly live, in every run in which no append follows a torn tail or holds a line break |
| Safety.ApplyOnlyAfterEverythingSettled | src/strategy_runtime/runtime/entry_reconciliation_orchestrator/orchestrator.py:74-86 | when an apply leaves, every id ever sent before is gone from the exchange, also between the legs of Replace, in every run in which no append follows a torn tail or holds a line break |
| Safety.SettledForever | src/strategy_runtime/runtime/position_management_orchestrator/ports.py:18-22 | an id proved settled is never live again, whatever became of the log |
| Safety.JournaledAtMostOnce | src/strategy_runtime/runtime/orchestrator/orchestrator.py:163-192 | at most one opened and at most one terminal record per id, in every run in which no append follows a torn tail or holds a line break |
| Safety.TerminalRecordIsFinal | src/strategy_runtime/runtime/uncertain_exchange_state_resolver/resolver.py:239-248 | once an id has a terminal record it is neither named nor live at any later moment and stays at one record, in every run in which no append follows a torn tail or holds a line break |
| Safety.IdsNeverReturn | src/strategy_runtime/runtime/state/identity.py:10-12 | an id offered to the log once and named no more is never named again, in every run in which no append follows a torn tail or holds a line break |
| Safety.FrozenForever | src/strategy_runtime/runtime/first_fill/state_applier.py:44-78 | while an id stays current its package, its frozen context and its remainder mark never change once set, in every run in which no append follows a torn tail or holds a line break |
| Safety.ReachableIsCoherent | src/strategy_runtime/runtime/state/models.py:132-177 | every reachable aggregate, served or durable, satisfies its constructors whatever became of the log; close marker and protection imply frozen, remainder mark implies a boundary, frozen entry equals applied entry |
| Safety.CrashAnywhere | src/strategy_runtime/infrastructure/runtime_state/jsonl_repository.py:160-187 | a crash after any step, then a restart, is a legal run; the new process serves what the log, torn tail included, replays to, or nothing when it does not replay |
| Lifecycle.WholeTradeIsPossible | src/strategy_runtime/runtime/operator_commands/service.py:125-193 | from any quiet instance the whole life of a trade is a legal run: applied, filled, frozen, marked, closed, back to the same state, with one opened and one closed record |
| Lifecycle.EntryIsPossible | src/strategy_runtime/runtime/entry_reconciliation_orchestrator/orchestrator.py:118-177 | so is its first half, up to a confirmed resting order |
| Runtime.Instance.Step | src/strategy_runtime/runtime/coordination/keyed_mutex.py:19-40 | one protocol step: new world, run and log, invariant kept |
| Runtime.Instance.Call | src/strategy_runtime/runtime/position_management_orchestrator/ports.py:18-22 | an external call changes only the exchange; its answer's evidence is recorded, an untrue answer is never given |
| Runtime.Instance.SaveState | src/strategy_runtime/infrastructure/runtime_state/jsonl_repository.py:92-106 | a save is complete, or cut off at any character with the torn line left in the log; a poisoned store refuses and changes nothing; the saved aggregate must be one its constructor accepts |
| Runtime.Instance.Tear | src/strategy_runtime/infrastructure/runtime_state/jsonl_repository.py:144-152 | a failed append poisons the store, leaves the served state and puts any part of the line into the log |
| Runtime.Instance.RestartProcess | src/strategy_runtime/infrastructure/runtime_state/jsonl_repository.py:51-55 | a new process serves exactly what the log replays to, or nothing |
| Runtime.Instance.SaveOrPoison | src/strategy_runtime/runtime/entry_remainder_cancel/step.py:36-54 | a failed save the caller survives leaves the store poisoned |
| Runtime.Instance.HandOverApply | src/strategy_runtime/runtime/entry_reconciliation_orchestrator/orchestrator.py:138-146 | an apply leaves only under its own durable marker and an id never sent before |
| State.NamesAtMostOneId | src/strategy_runtime/runtime/state/models.py:132-177 | cycle and markers of a valid aggregate name one id |
| Saves.MayMarkEntry | src/strategy_runtime/runtime/entry_reconciliation_orchestrator/orchestrator.py:135-143 | the write-ahead marker is permitted for the current cycle, or for a fresh id once the old one is settled |
| Saves.MayDrop | src/strategy_runtime/runtime/uncertain_exchange_state_resolver/resolver.py:220-248 | the named id may go once it is settled |
| Saves.MayBuildCycle | src/strategy_runtime/runtime/entry_reconciliation/state_applier.py:42-61 | a confirmed cycle may take the place of its own marker |
| Saves.MayBuildFrozenCycle | src/strategy_runtime/runtime/uncertain_exchange_state_resolver/resolver.py:163-173 | so may a rebuilt cycle that is frozen at once |
| Saves.MayFreeze | src/strategy_runtime/runtime/first_fill/freezer.py:37-49 | freezing the current cycle is permitted |
| Saves.MayUpdateFrozenCycle | src/strategy_runtime/runtime/position_management_execution/state_applier.py:44-73 | a protection or the remainder mark is permitted on a frozen cycle only |
| Saves.MayMarkClose | src/strategy_runtime/runtime/position_management_orchestrator/orchestrator.py:93-103 | the close marker is permitted on a frozen, unmarked cycle |
| BarProcessing.SendLeg | src/strategy_runtime/runtime/entry_reconciliation_orchestrator/orchestrator.py:118-146 | the marker is durable before the command leaves |
| BarProcessing.ExecuteLeg | src/strategy_runtime/runtime/entry_reconciliation_orchestrator/orchestrator.py:118-212 | one leg does exactly its plan; after a cancel the old id is settled and still marked, after an apply there is a confirmed cycle under its marker or nothing |
| BarProcessing.ExecuteEntry | src/strategy_runtime/runtime/entry_reconciliation_orchestrator/orchestrator.py:65-116 | the decision is carried through, Replace as a confirmed cancel and then an apply under the new id |
| BarProcessing.DecisionIsOwn | src/strategy_runtime/runtime/entry_reconciliation/reconciliation.py:39-109 | a decision only names the current cycle and only asks for the Engine's entry |
| BarProcessing.Finish | src/strategy_runtime/runtime/orchestrator/orchestrator.py:163-192 | nothing is saved when nothing changed; otherwise the save comes first and the end records follow |
| BarProcessing.CancelExpiredRemainder | src/strategy_runtime/runtime/entry_remainder_cancel/step.py:15-64 | a failed call or a failed save of the mark never stops the bar |
| BarProcessing.CloseMarked | src/strategy_runtime/runtime/position_management_orchestrator/orchestrator.py:93-113 | the close marker is durable before the close leaves |
| BarProcessing.ManagePosition | src/strategy_runtime/runtime/position_management_orchestrator/orchestrator.py:51-117 | keep, protect or close as planned, cut off only by a port call; `BarTraffic.TradeDoes` and `OrdersIffDue` say what that sends |
| BarProcessing.FilledBar | src/strategy_runtime/runtime/orchestrator/orchestrator.py:126-144 | the fill is frozen and journaled first; before its entry bar nothing else happens |
| BarProcessing.EndOnClosure | src/strategy_runtime/runtime/orchestrator/orchestrator.py:114-125 | a proved closure ends the cycle, with no Engine call and no entry on that bar |
| BarProcessing.GetOrCreate | src/strategy_runtime/infrastructure/runtime_state/jsonl_repository.py:61-84 | the stored state, a conflict, a registered initial state or a refusal |
| BarProcessing.Process | src/strategy_runtime/runtime/orchestrator/orchestrator.py:97-171 | one whole bar has exactly the effects and the result of its plan, by legal steps; a poisoned store stops it at once |
| Resolver.Attempt | src/strategy_runtime/runtime/uncertain_exchange_state_resolver/resolver.py:96-122 | one attempt has exactly the effects of the three tables, which `RecoveryTraffic.AttemptDoes` states by marker and answer; an unmarked instance is left untouched |
| Resolver.ResolvePendingClose | src/strategy_runtime/runtime/uncertain_exchange_state_resolver/resolver.py:124-155 | a pending close is cleared on a matching confirmation only |
| Resolver.ResolveUncertainApply | src/strategy_runtime/runtime/uncertain_exchange_state_resolver/resolver.py:157-196 | the uncertain-apply table |
| Resolver.ResolveUncertainRemoval | src/strategy_runtime/runtime/uncertain_exchange_state_resolver/resolver.py:198-218 | the uncertain-removal table |
| Resolver.Rebuild | src/strategy_runtime/runtime/uncertain_exchange_state_resolver/resolver.py:163-186 | the cycle is rebuilt from the package the executor holds, frozen at once when it filled |
| Resolver.CancelAndClearOnlyIfExactAbsent | src/strategy_runtime/runtime/uncertain_exchange_state_resolver/resolver.py:220-248 | the corrective cancel clears on exact absence only |
| Resolver.Tick | src/strategy_runtime/runtime/uncertain_exchange_state_resolver/worker.py:102-122 | each attempt of a tick does its whole plan, whatever the others end in; only a crash or the worker's stop ends a tick early, and stale or unreached entries are left exactly as they are |
| RecoveryLaws.RecoveryEqualsLostConfirmation | src/strategy_runtime/runtime/uncertain_exchange_state_resolver/resolver.py:163-173 | resolving a lost apply as live gives the state its confirmation would have given; as filled, that state frozen, or the freeze's own failure |
| RecoveryLaws.RecoveredThenFilled | src/strategy_runtime/runtime/uncertain_exchange_state_resolver/resolver.py:163-173 | recovered as filled equals recovered as live and then frozen |
| RecoveryLaws.AttemptKeepsOrClears | src/strategy_runtime/runtime/uncertain_exchange_state_resolver/resolver.py:96-248 | whatever the answers, the stored state is left alone or its marker is cleared |
| RecoveryLaws.StaleListIsHarmless | src/strategy_runtime/runtime/uncertain_exchange_state_resolver/worker.py:102-122 | the two pending lists hold exactly the marked instances, each in one list; an attempt on an instance in neither and a bar on one in either do nothing |
| RecoveryLaws.UncertainApplyCanClear | src/strategy_runtime/runtime/uncertain_exchange_state_resolver/resolver.py:157-196 | whatever the exchange holds, in flight included, there is a true answer that clears an uncertain apply in one attempt, unless it filled and the fill does not fit its entry |
| RecoveryLaws.UnfittingFillIsStuck | src/strategy_runtime/runtime/uncertain_exchange_state_resolver/resolver.py:163-173 | for every true answer about a filled apply: it clears only if the fill fits; otherwise marker and state stay, and every answer that reports the fill fails |
| RecoveryLaws.UncertainRemovalCanClear | src/strategy_runtime/runtime/uncertain_exchange_state_resolver/resolver.py:198-218 | a true answer clears an uncertain removal in one attempt |
| RecoveryLaws.RemovalInFlightStays | src/strategy_runtime/runtime/uncertain_exchange_state_resolver/resolver.py:198-218 | a removal whose order is still on its way stays marked for every true answer |
| RecoveryLaws.PendingCloseCanClear | src/strategy_runtime/runtime/uncertain_exchange_state_resolver/resolver.py:124-155 | a true answer clears a pending close in one attempt, whether the position is open or already gone |
| RecoveryLaws.FreezesIffFits | src/strategy_runtime/runtime/first_fill/state_applier.py:29-78 | an unfrozen cycle freezes exactly when the fill's candle exists and is not before the signal bar |
| RecoveryLaws.FreezeRefusedAs | src/strategy_runtime/runtime/first_fill/state_applier.py:29-78 | which exception refuses a fill: another cycle, another fill time, no candle, or a candle before the signal bar |
| RecoveryTraffic.AttemptDoes | src/strategy_runtime/runtime/uncertain_exchange_state_resolver/resolver.py:96-266 | every attempt by marker and answer: its calls, the one record it writes or none (terminal without fill, exact absence, a recovered fill, a proved close), and the state or exception it ends in |
| BarLaws.EmaEntryConverges | src/strategy_runtime/runtime/entry_reconciliation/reconciliation.py:39-64 | repeating an ema_anchor bar sends and saves nothing, exactly unless the executor declined the wished entry |
| BarLaws.EntryReachesWish | src/strategy_runtime/runtime/entry_reconciliation_orchestrator/orchestrator.py:65-116 | after an ema_anchor bar the cycle holds what the Engine asked for, or nothing if it asked for nothing or was declined |
| BarLaws.ReplaceRecordedIffApplyReturns | src/strategy_runtime/runtime/orchestrator/orchestrator.py:163-192 | after a Replace whose cancel was confirmed, in both modes, the old cycle's end record is written exactly when the second answer is an exact echo of the command or a decline of it; otherwise the bar fails |
| BarLaws.ReplacedCycleIsGone | src/strategy_runtime/runtime/entry_reconciliation_orchestrator/orchestrator.py:74-86 | either way the durable state no longer names the old cycle |
| BarLaws.NotReadyReplaceLeavesNoRecord | src/strategy_runtime/runtime/entry_reconciliation_orchestrator/orchestrator.py:145-156 | the effects when the second leg meets a not-ready executor: no end record among them |
| BarLaws.ApplyReturnsIff | src/strategy_runtime/runtime/entry_reconciliation_orchestrator/orchestrator.py:145-212 | an apply leg returns exactly on an exact echo of its command or a decline of it |
| BarLaws.LegResult | src/strategy_runtime/runtime/entry_reconciliation/state_applier.py:25-80 | what one leg that returned leaves |
| BarLaws.OpenTradeConverges | src/strategy_runtime/runtime/position_management_decision/decision.py:39-63 | repeating an open-trade bar sends and saves nothing, exactly unless the entry remainder is still due |
| BarLaws.OpenTradeReachesRecipe | src/strategy_runtime/runtime/position_management_decision/decision.py:19-63 | after an open-trade bar the effective protection is the wanted one, and the remainder is due only after a failed call or save |
| BarLaws.RemainderAskedIffDue | src/strategy_runtime/runtime/entry_remainder_cancel/step.py:24-38 | a bar asks for the remainder cancel at most once, and exactly when the position is open, the entry bar is reached, the frozen boundary has passed and the mark is not stored |
| BarLaws.MarkedRemainderNeverAsked | src/strategy_runtime/runtime/entry_remainder_cancel/step.py:24-26 | once the mark is stored no bar asks for this cycle's remainder again |
| BarLaws.FrozenBoundaryIsOrderBoundary | src/strategy_runtime/runtime/first_fill/state_applier.py:60-68 | the remainder falls due on exactly the bars that would have ended the unfilled order |
| BarLaws.EmaHasNoRemainder | src/strategy_runtime/runtime/first_fill/freezer.py:21-49 | in ema_anchor nothing is ever due |
| EntryTraffic.DecidedBy | src/strategy_runtime/runtime/entry_reconciliation/reconciliation.py:39-109 | both modes: the decision by wish, resting order and lifetime, and exactly when deciding is refused, a frozen cycle included |
| EntryTraffic.ApplyLegDoes | src/strategy_runtime/runtime/entry_reconciliation_orchestrator/orchestrator.py:118-212 | for every answer: the one command with its instance, id, ticker and entry, the result or the exception, and whether its marker is still durable |
| EntryTraffic.CancelLegDoes | src/strategy_runtime/runtime/entry_reconciliation_orchestrator/orchestrator.py:118-212 | the same for a removal |
| EntryTraffic.LiveEntryDoes | src/strategy_runtime/runtime/entry_reconciliation_orchestrator/orchestrator.py:65-116 | the commands of a bar in order, the second of a Replace only after the first is confirmed; the end record exactly when the order is gone for good; what the bar ends in |
| EntryTraffic.LiveEntryLeaves | src/strategy_runtime/runtime/entry_reconciliation_orchestrator/orchestrator.py:118-177 | what is durable afterwards, failed bars included: the marker of exactly the command whose answer left it uncertain |
| BarTraffic.TradeDoes | src/strategy_runtime/runtime/position_management_orchestrator/orchestrator.py:51-117 | an open trade: remainder cancel, question, then the close or the recipe's whole protection, each with the managed id; the closed record exactly on proof of closure; the result or exception for every answer |
| BarTraffic.BarDoes | src/strategy_runtime/runtime/orchestrator/orchestrator.py:97-192 | every bar from every stored state: exactly these calls with these arguments, exactly these records, and this end |
| BarTraffic.BarLeaves | src/strategy_runtime/runtime/orchestrator/orchestrator.py:97-171 | what a restart right after the bar would serve, for returned and failed bars |
| BarTraffic.OrdersIffDue | src/strategy_runtime/runtime/position_management_execution/command_builder.py:21-50 | over every bar and every argument: a protection is sent once exactly when the managed trade does not hold the recipe's and no close is signalled, and it is the recipe's own; a close exactly on the signal; a remainder cancel exactly when due |
| ConfirmationLaws.ApplyConfirmedIffExactEcho | src/strategy_runtime/runtime/entry_reconciliation/state_applier.py:25-61 | an apply is confirmed exactly by an answer for this instance and id whose every price is numerically the sent one |
| ConfirmationLaws.CancelConfirmedIffExactAbsent | src/strategy_runtime/runtime/entry_reconciliation/state_applier.py:64-80 | a removal is confirmed exactly by absence of this instance's very cycle; no other answer ends it |
| ConfirmationLaws.DecisionFollowsHeldProtection | src/strategy_runtime/runtime/position_management_decision/decision.py:19-63 | closed exactly on the signal, kept exactly when the wanted protection is the last confirmed one or, before any, the entry's own stop and take |
| TouchTriggerLaws.HoldIffBeforeBoundary | src/strategy_runtime/runtime/entry_reconciliation/reconciliation.py:67-109 | whatever the Engine wants, the decision is to hold exactly before S + (N + 1) timeframes, and then Replace exactly for a signal on that very bar |
| TouchTriggerLaws.HeldUntilBoundaryThenEnded | src/strategy_runtime/runtime/entry_reconciliation/reconciliation.py:97-109 | over any bars before the boundary, skipped, repeated or failing, nothing is sent or saved; the first later bar marks and cancels first |
| ReplaceChain.BarIsSpaced | src/strategy_runtime/runtime/entry_reconciliation/reconciliation.py:97-109 | a bar keeps its resting order, ends it, or replaces it by one planned on that very bar at least N + 1 timeframes later, also when the reply is lost |
| ReplaceChain.AttemptKeepsOrder | src/strategy_runtime/runtime/uncertain_exchange_state_resolver/resolver.py:157-248 | a resolver attempt keeps the chain's order or ends it; a rebuilt order is the one that was sent |
| ReplaceChain.SignalBarsAreSpaced | src/strategy_runtime/runtime/entry_order_lifetime.py:4-21 | over any run of bars and resolver attempts with k replacements the signal bar advances by at least k(N + 1) timeframes |
| Lifetime.ExpiredIffPastLifetime | src/strategy_runtime/runtime/entry_order_lifetime.py:4-21 | expiry falls exactly on bars opening N + 1 timeframes after the signal bar or later |
| Lifetime.TimeframeIsItsLabel | src/strategy_runtime/runtime/timeframe.py:3-19 | exactly six timeframes are supported, and each lasts its number of minutes, hours or days |
| Lifetime.AlignedBarContainsFill | src/strategy_runtime/runtime/first_fill/alignment.py:6-11 | the aligned bar is the one candle of the grid that contains the fill, both ways |
| FirstFill.FrozenForFits | src/strategy_runtime/runtime/first_fill/state_applier.py:51-78 | a frozen context is aligned, contains the fill, is not before the signal bar and has a boundary exactly in touch_trigger |
| FirstFill.FreezeKeepsCoherent | src/strategy_runtime/runtime/first_fill/state_applier.py:15-78 | freezing keeps every rule and changes nothing but an absent frozen context |
| FirstFill.FreezeIsFinal | src/strategy_runtime/runtime/first_fill/state_applier.py:44-49 | the same fill time again changes nothing, another one is refused, under any later setting |
| Operator.OnFirstFill | src/strategy_runtime/runtime/abi_execution_event/orchestrator.py:23-35 | the webhook freezes, saves only a change, and refuses an unknown instance |
| Operator.CancelStep | src/strategy_runtime/runtime/enabled_control/cancel_step.py:43-86 | every refusal, and on return a durable state that names nothing; `OperatorTraffic.CancelStepDoes` says which refusal comes when and what is sent |
| Operator.SetEnabled | src/strategy_runtime/runtime/enabled_control/service.py:70-86 | cancel first, file last; a disable that changed the file leaves a served state that names nothing, and nothing live while the log's tail was kept |
| Operator.CancelEntryOrders | src/strategy_runtime/runtime/operator_commands/service.py:108-113 | on return disabled, quiet, and nothing live while the log's tail was kept |
| Operator.Delete | src/strategy_runtime/runtime/strategy_delete/service.py:71-79 | on return moved, quiet, and nothing live while the log's tail was kept |
| Operator.CloseFrozen | src/strategy_runtime/runtime/operator_commands/service.py:168-193 | disable, mark, close, clear, in this order |
| Operator.ClosePosition | src/strategy_runtime/runtime/operator_commands/service.py:125-193 | an unfrozen fill is frozen and journaled first; on return disabled, quiet, and nothing live while the log's tail was kept |
| Operator.QuietMeansNothingLive | src/strategy_runtime/runtime/enabled_control/service.py:1-7 | with no cycle and no marker in the served state nothing can be at the exchange, while the log's tail was kept |
| OperatorLaws.FileChangesOnlyWhenQuiet | src/strategy_runtime/runtime/enabled_control/service.py:81-86 | disable, cancel-entry-orders and delete change the file only while the durable state has no cycle and no marker |
| OperatorLaws.CancelStepLeavesQuiet | src/strategy_runtime/runtime/enabled_control/cancel_step.py:43-86 | the cancel step touches no file and leaves a quiet state when it returns |
| OperatorLaws.RefusalChangesNothing | src/strategy_runtime/runtime/enabled_control/cancel_step.py:43-77 | a refusal changes neither state nor file |
| OperatorLaws.CloseDisablesFirst | src/strategy_runtime/runtime/operator_commands/service.py:168-176 | the operator's close marks and sends only after `enabled=false` is on disk |
| OperatorLaws.FillPathsAgree | src/strategy_runtime/runtime/first_fill/freezer.py:37-49 | webhook, bar (before and from its entry bar on) and operator close freeze one fill to the same state, or fail alike |
| OperatorTraffic.CancelStepDoes | src/strategy_runtime/runtime/enabled_control/cancel_step.py:43-86 | a cancel is sent exactly for an unmarked cycle whose position is flat and unsettled, and for its own id; an open position, an unsettled closure, a failed look-up and a marker each refuse with their own exception, the question the only effect |
| OperatorTraffic.SetEnabledDoes | src/strategy_runtime/runtime/enabled_control/service.py:70-101 | every refusal in order, then the step, then the file |
| OperatorTraffic.CancelEntryOrdersDoes | src/strategy_runtime/runtime/operator_commands/service.py:108-113 | the same for cancel-entry-orders |
| OperatorTraffic.DeleteDoes | src/strategy_runtime/runtime/strategy_delete/service.py:71-79 | the same for delete: an enabled instance or an unreadable file refuses before the step |
| OperatorTraffic.ClosePositionDoes | src/strategy_runtime/runtime/operator_commands/service.py:125-193 | every refusal of the close with its exception; otherwise the opened record exactly for a fill frozen now, disabled before the close, the close of this very cycle, the closed record exactly on a matching confirmation with proof |
| OperatorTraffic.ClosePositionLeaves | src/strategy_runtime/runtime/operator_commands/service.py:168-193 | what is durable after it: the close marker stays on every answer that does not match |
| OperatorTraffic.WebhookDoes | src/strategy_runtime/runtime/abi_execution_event/orchestrator.py:23-35 | the webhook sends and records nothing and ends as the freeze does |
| WriteAhead.BarIsAhead | src/strategy_runtime/runtime/entry_reconciliation_orchestrator/orchestrator.py:118-146 | over every bar: each save keeps the registration and the constructor rules, each entry command and close leaves under its own durable marker |
| WriteAhead.AttemptIsAhead | src/strategy_runtime/runtime/uncertain_exchange_state_resolver/resolver.py:96-248 | the same over every attempt |
| WriteAhead.OperatorIsAhead | src/strategy_runtime/runtime/operator_commands/service.py:168-193 | the same over every operator command and the webhook |
| WriteAhead.OwedIsGranted | src/strategy_runtime/infrastructure/runtime_state/jsonl_repository.py:92-106 | whatever such a writer saves, marked or not, the store grants and serves, and no other instance's state changes |
| KeyedMutex.KeyedMutexRegistry.LockFor | src/strategy_runtime/runtime/coordination/keyed_mutex.py:28-30 | one lock per key, never replaced, shared by no other key |
| KeyedMutex.KeyedMutexRegistry.TryAcquire | src/strategy_runtime/runtime/coordination/keyed_mutex.py:31-36 | a lock is taken exactly when it was free |
| KeyedMutex.ReachableKeepsInv | src/strategy_runtime/runtime/coordination/keyed_mutex.py:19-40 | every interleaving keeps the ownership invariant |
| KeyedMutex.MutualExclusion | src/strategy_runtime/runtime/coordination/keyed_mutex.py:19-40 | at most one thread is inside a key's section |
| KeyedMutex.WaiterEntersIffFree | src/strategy_runtime/runtime/coordination/keyed_mutex.py:28-40 | a waiter can enter exactly when nobody is inside its key's section, and then it is inside |
| KeyedMutex.TimedOutChangesNothing | src/strategy_runtime/runtime/coordination/keyed_mutex.py:33-36 | a waiter that times out owns no lock, changes nothing and cannot release |
| KeyedMutex.SaveDerivesFromStored | src/strategy_runtime/infrastructure/runtime_state/jsonl_repository.py:92-106 | every save works from exactly what is stored at that moment |
| KeyedMutex.NoLostUpdate | src/strategy_runtime/infrastructure/runtime_state/jsonl_repository.py:92-106 | per key all saves form one chain from the replayed state to the stored one |
| KeyedMutex.SectionsAreTurns | src/strategy_runtime/runtime/coordination/keyed_mutex.py:19-40 | under every interleaving what happens inside one key's section is one whole turn after another, so the writers of an instance run as some sequence of turns |
| Intake.IntakeBoundary.Make | src/strategy_runtime/runtime/committed_bar_intake/boundary.py:26-37 | a non-positive bound is refused |
| Intake.IntakeBoundary.PutNowait | src/strategy_runtime/runtime/committed_bar_intake/boundary.py:43-47 | accepted in order while accepting and below the bound, otherwise refused with nothing changed |
| Intake.IntakeBoundary.StopAccepting | src/strategy_runtime/runtime/committed_bar_intake/boundary.py:49-51 | closes the accepting end and nothing else |
| Intake.IntakeBoundary.Get | src/strategy_runtime/runtime/committed_bar_intake/boundary.py:53-55 | hands out the oldest accepted event not taken yet |
| Intake.ProcessedInOrderOneAtATime | src/strategy_runtime/runtime/committed_bar_intake/worker.py:85-109 | processed bars are a prefix of the accepted ones, at most one is in flight, the queue keeps its bound |
| Intake.NothingAcceptedAfterStop | src/strategy_runtime/runtime/committed_bar_intake/boundary.py:43-51 | nothing is accepted after `stop_accepting` |
| Intake.NothingProcessedAfterStop | src/strategy_runtime/runtime/committed_bar_intake/worker.py:70-83 | after `stop_once` has returned no processing runs or ever starts |
| Intake.RunningWorkerProcessesOldest | src/strategy_runtime/runtime/committed_bar_intake/worker.py:85-109 | a running worker with a waiting event processes the oldest one and changes nothing else |
| Intake.ReachableKeepsInv | src/strategy_runtime/runtime/committed_bar_intake/worker.py:48-109 | the invariant over every interleaving of producers, starters, stoppers and the worker |
| DecimalText.AnalyzeExactDecimalText | src/strategy_runtime/shared/decimal_text.py:36-76 | the scanner's loops decide exact-decimal text and report positive exactly when the denoted value exceeds zero |
| DecimalText.ParseAcceptsGrammar | src/strategy_runtime/shared/decimal_text.py:36-76 | every text of the grammar is accepted with the value it denotes |
| DecimalText.ParseOnlyGrammar | src/strategy_runtime/shared/decimal_text.py:36-76 | every accepted text is of the grammar |
| DecimalNormalize.NormalizeCorrect | src/strategy_runtime/shared/decimal_text.py:18-33 | normalizing keeps the value, yields exact-decimal text and is idempotent |
| DecimalNormalize.NormalizeDecidesEquality | src/strategy_runtime/shared/decimal_text.py:18-33 | two texts normalize to the same text exactly when their values are equal |
| DecimalNormalize.CanonicalTextDecidesEquality | src/strategy_runtime/shared/decimal_text.py:18-33 | canonical texts are equal exactly when the numbers are |
| DecimalNormalize.CanonicalForm | src/strategy_runtime/shared/decimal_text.py:18-33 | the normal spelling has no exponent, no zero after its last decimal, no bare point and no signed zero |
| Recipes.EntryConstructorFixpoint | src/strategy_runtime/runtime/recipes/entry.py:19-35 | a constructed entry is valid and constructing it again changes nothing |
| Recipes.ProtectionConstructorFixpoint | src/strategy_runtime/runtime/recipes/position_management.py:15-18 | the same for a protection |
| Recipes.ProtectionHasItsPrices | src/strategy_runtime/runtime/recipes/position_management.py:11-18 | any exact prices, however spelled, make a protection with the same two numbers; without a take price exactly when none was given |
| Recipes.EntryHasItsPrices | src/strategy_runtime/runtime/recipes/entry.py:10-35 | exact prices make an entry exactly for a known side, a bar, a positive take price and a profile, and with those numbers |
| Recipes.EncodingAlwaysAccepted | src/strategy_runtime/runtime/entry_reconciliation_bridge/bridge.py:99-110 | any desired entry can be put on the wire |
| Recipes.EchoMatchesIffNumericallyEqual | src/strategy_runtime/runtime/entry_reconciliation_bridge/bridge.py:112-120 | an echo decodes to the sent entry exactly when it is numerically the same entry |
| JsonText.RoundTrip | src/strategy_runtime/infrastructure/runtime_state/codec.py:95-110 | reading a written value gives it back, with anything after it that cannot continue it |
| JsonText.LoadsDumps | src/strategy_runtime/infrastructure/runtime_state/codec.py:95-110 | `loads` of `dumps` is the identity |
| JsonText.LoadsIgnoresBlanks | src/strategy_runtime/infrastructure/runtime_state/codec.py:110-110 | blanks around a written value do not matter, any other text after it that cannot continue it is a syntax error |
| JsonCut.CutValue | src/strategy_runtime/infrastructure/runtime_state/jsonl_repository.py:145-149 | a written value cut at any character and continued by nothing or by a whole line is not a readable value |
| JsonCut.CutLineNeverLoads | src/strategy_runtime/infrastructure/runtime_state/jsonl_repository.py:172-177 | a line cut off inside is a syntax error, alone or with the next line glued to it |
| JsonCut.GluedLinesNeverLoad | src/strategy_runtime/infrastructure/runtime_state/jsonl_repository.py:172-177 | so are two lines without a break between them |
| Codec.StateRoundTrip | src/strategy_runtime/infrastructure/runtime_state/codec.py:117-387 | decoding the encoded envelope gives back every valid aggregate |
| Codec.AcceptedIsValid | src/strategy_runtime/infrastructure/runtime_state/codec.py:221-285 | an accepted envelope of any version holds a valid aggregate, with the defaults of the fields its version lacks; which one is `OldVersions.OldStateRoundTrip` |
| OldVersions.OldStateRoundTrip | src/strategy_runtime/infrastructure/runtime_state/codec.py:221-326 | every state versions 1 to 3 can hold reads back from that version's envelope, its cycle and markers included |
| OldVersions.TrueReadsAsVersionOne | src/strategy_runtime/infrastructure/runtime_state/codec.py:221-229 | an envelope that declares `true` as its version reads as version 1 |
| OldVersions.OldLineRoundTrip | src/strategy_runtime/infrastructure/runtime_state/codec.py:103-114 | the same for the lines of an old log; the next save writes a line of today for the same state |
| OldVersions.AcceptedIsWellKeyed | src/strategy_runtime/infrastructure/runtime_state/codec.py:215-387 | nothing is accepted with a key its version does not have, or without one it has, at any level |
| StateLines.LineRoundTrip | src/strategy_runtime/infrastructure/runtime_state/codec.py:95-114 | decoding an encoded line gives back every valid aggregate |
| StateLines.AcceptedLineReencodes | src/strategy_runtime/infrastructure/runtime_state/codec.py:103-114 | any accepted line of versions 1 to 4 re-encodes to a line that decodes to the same state |
| StateLines.LoadsCanonical | src/strategy_runtime/infrastructure/runtime_state/codec.py:110-110 | whatever text is read, objects come out with unique keys in order |
| LineBreaks.LineUnbrokenIffClean | src/strategy_runtime/infrastructure/runtime_state/codec.py:100-100 | an encoded state is one line for `splitlines` exactly when none of its own strings holds U+0085, U+2028 or U+2029 |
| LogReplay.AppendReplays | src/strategy_runtime/infrastructure/runtime_state/jsonl_repository.py:133-152 | a complete append keeps the log healthy and replays to the updated index |
| LogReplay.CrashCutIsAtomic | src/strategy_runtime/infrastructure/runtime_state/jsonl_repository.py:160-187 | an append cut at any character replays to exactly the map before or after it |
| LogReplay.TornTailLosesNextSave | src/strategy_runtime/infrastructure/runtime_state/jsonl_repository.py:145-177 | the first save after a torn tail is lost at the next replay, with the torn line |
| LogReplay.TornTailThenTwoSavesCannotReplay | src/strategy_runtime/infrastructure/runtime_state/jsonl_repository.py:178-180 | a second save after a torn tail makes replay fail |
| LogReplay.SaveSurvivesIffClean | src/strategy_runtime/infrastructure/runtime_state/jsonl_repository.py:166-180 | a saved state replays exactly when it holds none of the three characters; otherwise replay fails |
| ReplayLaws.ReplayIsLastLineOfEach | src/strategy_runtime/infrastructure/runtime_state/jsonl_repository.py:160-187 | replay fails exactly on a refused record anywhere or a syntax error before the last line; otherwise it gives each instance the state of its last line and no other instance |
| ReplayLaws.UnacceptableRecordFailsReplay | src/strategy_runtime/infrastructure/runtime_state/jsonl_repository.py:181-184 | a record that is valid JSON and not acceptable fails the replay even as the last line |
| LogView.AppendFollows | src/strategy_runtime/infrastructure/runtime_state/jsonl_repository.py:133-152 | every append, complete or cut at any character, on every log that crashes can make, whatever its strings hold, changes tail and replay as the rule says |
| LogView.ShapeReplays | src/strategy_runtime/infrastructure/runtime_state/jsonl_repository.py:160-187 | what each such log replays to, and when it does not |
| LogView.LogFollowsTail | src/strategy_runtime/infrastructure/runtime_state/jsonl_repository.py:133-187 | after any history of complete and cut-off appends the file replays to exactly what the rule says |
| LogView.SeenFollows | src/strategy_runtime/infrastructure/runtime_state/jsonl_repository.py:97-106 | the rule holds for one instance as for the whole log: another instance's line changes only the tail |
| LogView.NextSaveDurableIffHealthy | src/strategy_runtime/infrastructure/runtime_state/jsonl_repository.py:145-180 | on every such log the next save that changes the map is durable exactly when every line is complete and decodes; a torn log does not end a line |
| LogView.MendIsPossible | src/strategy_runtime/infrastructure/runtime_state/jsonl_repository.py:172-177 | every torn log can be mended without changing what it replays to |
| Store.ReplayFile | src/strategy_runtime/infrastructure/runtime_state/jsonl_repository.py:160-187 | the replay loop computes the latest state per instance and forgives a syntax error on the last line only |
| Store.JsonlRepository.Open | src/strategy_runtime/infrastructure/runtime_state/jsonl_repository.py:51-55 | opening replays, fails exactly when replay fails, and is sound on a healthy log |
| Store.JsonlRepository.Append | src/strategy_runtime/infrastructure/runtime_state/jsonl_repository.py:133-152 | the file after a complete or a broken append, what it replays to, and the poisoning |
| Store.JsonlRepository.GetOrCreate | src/strategy_runtime/infrastructure/runtime_state/jsonl_repository.py:61-84 | answers as the in-memory repository, keeps index equal to replay; a failed write poisons and leaves before or after on disk; poisoned refuses |
| Store.JsonlRepository.Save | src/strategy_runtime/infrastructure/runtime_state/jsonl_repository.py:92-106 | the same for a save; which saves are granted is `Store.SaveGrantedIffRegistered` |
| Store.JsonlRepository.Get | src/strategy_runtime/infrastructure/runtime_state/jsonl_repository.py:86-90 | the indexed state, or a refusal for an empty id or a poisoned store |
| Store.LogRefinesMemory | src/strategy_runtime/infrastructure/runtime_state/jsonl_repository.py:61-187 | from a clean-tailed log, after any history of calls the file replays to exactly the in-memory repository's map |
| Store.SaveGrantedIffRegistered | src/strategy_runtime/infrastructure/runtime_state/jsonl_repository.py:97-106 | a save is granted exactly for a known instance under its own strategy and snapshot; each refusal has its own error and changes nothing |
| Store.CreateGrantedIffAcceptable | src/strategy_runtime/runtime/state/repository.py:41-62 | asking for an instance gives the stored state under the same strategy, or a quiet new one the constructors accept, or a refusal that changes nothing |
| Store.RegisteredSaveIsGranted | src/strategy_runtime/infrastructure/runtime_state/jsonl_repository.py:92-106 | after any history since its registration, every state of an instance under that registration is granted and served next, and any other is refused |
| Store.RegistrationIsForever | src/strategy_runtime/runtime/state/repository.py:41-81 | over any history of calls a registered instance stays registered under the same strategy and snapshot, and calls that never name it leave its state alone |
| Store.AnswersAreStable | src/strategy_runtime/runtime/state/repository.py:41-81 | asking again gives the same state and changes nothing; what was saved is what is read |
| Witnesses.SomeStateCannotBeReplayed | src/strategy_runtime/infrastructure/runtime_state/codec.py:100-100 | a valid state with U+0085 in its source path whose log does not replay |
| Witnesses.DeclinedEntryIsAskedAgain | src/strategy_runtime/runtime/entry_reconciliation/reconciliation.py:39-64 | a bar whose entry is declined and whose repetition sends the apply again |
| Witnesses.SomeFillDoesNotFit | src/strategy_runtime/runtime/first_fill/state_applier.py:51-58 | an apply planned on the bar at 60000 and reported filled at 1, whose attempt fails |

## Left out

- HTTP adapters, routes, the ABI and Engine wire codecs and their field checks: answers enter as typed values; content-type, status and field validation would only add easy members.
- Engine calculations and the executor's own behaviour: only the assumptions listed above enter.
- Deployment catalog scanning, identity hashing, the enabled-file writer and the trash mover: one `enabled` flag, one presence flag, and a refusal.
- The catalog look-up the operator services repeat before they take the mutex: it has no effect on state.
- Committed-bar fan-out and selection, chart layers, the trading-state view, configuration and bootstrap: wiring.
- Journals other than opened, ended and closed records, and every record field except the id and the reason.
- Resolver worker lifecycle: the same start and stop shape as the intake worker; its tick is modelled.
- The intake worker's thread runs an endless loop, so the worker is a state machine over its loop positions, not a method; so are the writers' threads in the mutex model.
- Real time, poll intervals, fairness and liveness: nothing is claimed about how long anything takes.
- `Decimal` beyond its text: exponent range limits, context precision and non-ASCII digits or spaces inside a number are not modelled.
- Floats in `raw_spec` keep their literal text; that Python prints some literals differently from how they were written, NaN and the infinities are not modelled.
- Lone surrogates in strings: Dafny characters are Unicode scalar values; torn writes are cut at character boundaries.
- Decoding accepts only what the encoder's types allow where the constructors check less: a float or boolean source bar time, a float schema version and a `raw_spec` given as a list of pairs are refused in the model. An attribute error on a non-string field counts as a refusal.
- Store.JsonlRepository.Save: later calls are described only after a state without the three line-break characters; `LogReplay.SaveSurvivesIffClean` says what the others do.
- The order of the pending lists: they are sets here, in insertion order in the source.
- Aliasing of aggregates: they are immutable values in the source and here.

# The chaos orchestrator, modelled and proved in Dafny

An experiment takes a target application from a healthy baseline through an injected fault to a
verification, a diagnosis and a proposed fix. This project models the parts that have to be right for
that to be safe, and proves what they keep over every run, every order of events and every input:

- the run protocol (`RunTrace`, `RunLoop`, `RunProperties`, `RunOutcome`, `RunResidue`, `RunLeak`,
  `RunTheorems`) with its gates (`Safety`), its store shared with an operator (`Store`), suppression
  (`Suppression`) and cost accounting (`Harness`);
- the plugin host with its two unwind stacks and its concurrent drive (`PluginHost`);
- fault injection into a cluster (`Chaos`) and on the bench, down to the attack device's firmware
  (`Hardware`, `LineReader`);
- the LLM tool loop (`Llm`), statistics and drift (`Stats`, `Drift`), hybrid merges (`Merge`), glob
  translation and fixer policy (`Glob`, `FixerPolicy`), coverage (`Coverage`), and the UI server's paged
  reads and rollups (`Paging`, `Aggregates`).

`Prelude`, `Sorting`, `Text` and `Contracts` hold the shared vocabulary.

Agents, plugin hooks, guards, the model behind the LLM, the clock and the operator are black boxes: each
call answers anything or raises, awaits finish in any order, and operator writes land before any store
call of the loop. A run is an `ExperimentRunner` whose methods follow `orchestrator/loop.py`. It leaves a
ghost trace of events, each of which must be allowed by what came before (`RunTrace.Allowed`) and by what
plan, plugin and agents' answers come to. `RunProperties`, `RunOutcome`, `RunResidue` and `RunLeak` prove
what follows for any such trace; `RunTheorems` says it of a run that is over, in terms of its record, its
agents and its store.

## Model

| member | source | states |
|---|---|---|
| RunLoop.ExperimentRunner.Run | orchestrator/loop.py:107-154 | Whatever agents, plugin, operator and clock do, the run ends with a record that is RECORDED or ABORTED, finished, with a reason exactly if ABORTED and that reason justified; it is the row stored, next to the operator's flags; every event of its trace was allowed; every report on it is the answer of the agent it is filed under; the invocations on it are those the harness carried before and one entry of every call since; an opened session has been unwound, its hooks in between are those of the trace, and the audit trail of all of it is on the record; the trace starts with the flags and the harness spend found at the start |
| RunLoop.ExperimentRunner.Preflight | orchestrator/loop.py:121-131 | No session is opened unless cluster and blast radius pass; otherwise the run is over already, with the reason of the gate that failed |
| RunLoop.ExperimentRunner.RunInSession | orchestrator/loop.py:133-154 | Set-up, body and teardown: on every way out, an exception included, the session is unwound before the last save: the callbacks run are those that set-up and the hooks since had registered, test scope first, each stack last in first out |
| RunLoop.ExperimentRunner.RunBody | orchestrator/loop.py:156-363 | Ends with a concluded and stored record, or with an exception for which something did raise; never with a cleanup still owed |
| RunLoop.ExperimentRunner.AnnotationGate | orchestrator/loop.py:166-169 | Passes only on the annotations the agent really read; a getter that is missing or raises reads as unannotated |
| RunLoop.ExperimentRunner.Baseline | orchestrator/loop.py:171-210 | Goes on only past a clear poll, two baselines heard and healthy, the capture hook, a budget check within the caps and then a second clear poll, in that order |
| RunLoop.ExperimentRunner.InjectFault | orchestrator/loop.py:212-244 | Goes on only if the drive gave back a timeline that reports success; a tripped guard, any other exception and an unsuccessful timeline end the run, each with its reason |
| RunLoop.ExperimentRunner.DriveSession | orchestrator/loop.py:219-235 | The drive ends as one of its tasks ended: returned only if neither injection nor workload raised, a guard signal only from a task that raises it, cut off only if another task raised |
| RunLoop.ExperimentRunner.StopAfterGuard | orchestrator/loop.py:223-231 | After a tripped guard the cleanup is asked for, if the agent has one, then diagnostics are collected, and then the run is aborted |
| RunLoop.ExperimentRunner.VerifyRun | orchestrator/loop.py:246-312 | Goes on to the diagnosis only if the tester was not steady or the scan found something critical or high, or drifted, and poll and budget passed; STEADY only without any objection, the plugin's included |
| RunLoop.ExperimentRunner.Judge | orchestrator/loop.py:275-286 | Chooses between STEADY and REGRESSED by the two agents' reports and the plugin's verdict |
| RunLoop.ExperimentRunner.DiagnoseRun | orchestrator/loop.py:313-357 | Goes on to the fixer only with a tagged diagnosis on record that has an active hypothesis, past budget and poll |
| RunLoop.ExperimentRunner.Suppress | orchestrator/loop.py:332-337 | Every hypothesis stays; a fingerprint is suppressed afterwards exactly if it was before or some hypothesis carrying it is matched by a rule |
| RunLoop.ExperimentRunner.ProposeFixFor | orchestrator/loop.py:359-363 | Ends in FIX_PROPOSED with the fix on record, or with the fixer's exception |
| RunLoop.ExperimentRunner.CheckControl | orchestrator/loop.py:367-404 | Answers None only when the last poll was clear, and an abort with the operator's reason or USER_KILL; a pause is put on disk before the flags are polled again, and held until lifted; nothing else on the record changes |
| RunLoop.ExperimentRunner.CheckBudgetStep | orchestrator/loop.py:406-430 | Fails exactly if harness spend or elapsed time has reached its hard cap; the record's spend is brought up to date either way |
| RunLoop.ExperimentRunner.Abort | orchestrator/loop.py:495-514 | Only for a justified reason; the terminal save is followed by the clearing of the flags |
| RunLoop.ExperimentRunner.Finish | orchestrator/loop.py:516-524 | Only where the state machine allows RECORDED, with no abort pending |
| RunLoop.ExperimentRunner.SyncPlugin | orchestrator/loop.py:478-493 | Takes over the audit trail, and the verdict only if the plugin has one |
| RunLoop.ExperimentRunner.SyncSpend | orchestrator/loop.py:526-530 | The record's spend becomes the harness total; without a harness it stays |
| RunTheorems.InjectionWasGuarded | orchestrator/loop.py:124-222 | If chaos.execute was started in a finished run: the plan is allowed, the annotations the agent read satisfy the gate where required, both baseline agents answered healthy, and since the last agent call a poll was clear and a budget check within its caps |
| RunTheorems.FixerWasGuarded | orchestrator/loop.py:337-361 | If the fixer was asked: the diagnosis holds a hypothesis that is neither suppressed beforehand nor tagged by a rule, past fresh gates |
| RunTheorems.AbortWasObeyed | orchestrator/loop.py:367-391 | After a poll that saw an abort no agent is started, and the record is ABORTED with the operator's reason |
| RunTheorems.AbortWasHeardIff | orchestrator/loop.py:367-391 | The run heard of an abort if and only if a poll came after the request, or the abort was on the row from the start and there was a poll; a later request is cleared with the flags |
| RunTheorems.TeardownRanEverythingIff | orchestrator/loop.py:133-154 | The teardown of a run ran every callback registered, and those registered in turn, exactly once, if and only if the test scope was never opened or no environment callback registers another |
| RunTheorems.OverspendWasTheEnd | orchestrator/loop.py:406-430 | After a budget check that failed no agent is started, and the record is ABORTED |
| RunTheorems.PollsSawTheOperator | orchestrator/loop.py:386-386 | Each poll returns the flags found at the start, changed by a beginning of the operator's own writes and by nothing else |
| RunTheorems.FlagsWereCleared | orchestrator/loop.py:495-524 | The flags have been cleared, and are clear at the end unless the operator wrote later |
| RunTheorems.StatesFormedAPath | orchestrator/loop.py:174-363 | The states persisted, pauses aside, form a path of the documented state machine from INITIALIZING to the record's state |
| RunTheorems.PausesWereAskedFor | orchestrator/loop.py:394-403 | PAUSED is persisted only right after a poll that saw a pause and no abort |
| RunTheorems.PauseHeldTheRun | orchestrator/loop.py:376-404 | After a poll that asks for a pause, until the next poll, no agent is called, no hook runs, no budget is checked and no state but PAUSED is entered; by the next poll PAUSED is on disk |
| RunTheorems.AgentsStayedInSession | orchestrator/loop.py:133-137 | No agent is started before the session is opened or after it is closed |
| RunTheorems.WasRecordedIff | orchestrator/loop.py:107-363 | A finished run is RECORDED if and only if plan, plugin and agents gave no reason to stop it, the drive gave back a successful injection, no poll saw an abort and no budget check failed |
| RunTheorems.RecordIsComplete | orchestrator/loop.py:174-363 | A RECORDED record holds both healthy baselines, the successful timeline, both verifications and the plugin's verdict; a diagnosis exactly if the tester was not steady or the scan found something critical or high, or drifted; a fix exactly if a hypothesis was left |
| RunTheorems.RegressionWasPersistedIff | orchestrator/loop.py:275-299 | A RECORDED run has persisted REGRESSED exactly if the tester was not steady, the scan found something critical or high or drifted, or the plugin's verdict is false |
| RunTheorems.HooksRanInOrder | orchestrator/loop.py:196-290 | Between set-up and teardown a run's session ran a beginning of capture, drive, verification, diagnostics, or diagnostics right after the drive; a RECORDED one the first three, and diagnostics exactly if an agent or the plugin objected |
| RunTheorems.AnswersWereFiled | orchestrator/loop.py:177-362 | However the run ends: what an agent that was called has answered is on the record under that agent's name |
| RunTheorems.CallsWereLogged | orchestrator/loop.py:450-476 | With a harness, the record's invocations are those carried before and one run of entries for each call made, in order |
| RunTheorems.RegisteredCleanupRan | orchestrator/loop.py:133-154 | Whatever set-up, a hook or the drive has registered is run by the teardown and has a line of the audit trail that says whether it failed |
| RunTheorems.AbortWasWarranted | orchestrator/loop.py:128-363 | The abort reason on record was requested by the operator, or goes with what plan, annotations, baselines, budget, guard or a failing collaborator came to |
| RunTheorems.SpendWasTheBill | orchestrator/loop.py:526-530 | With a harness, record.spend is what the harness carried before plus, for every call made, what that agent's own bookings cost; of a cut injection what it had cost by then |
| RunTheorems.NothingWasLeft | orchestrator/loop.py:219-240 | With a plugin that cannot break, and cannot trip next to an agent that cannot clean up, the cluster is afterwards as it was before |
| RunProperties.ExecuteIsGuarded | orchestrator/loop.py:124-222 | The same over every trace whose events were allowed: all gates seen passed before chaos.execute, none made stale by an agent call |
| RunProperties.FixerIsGuarded | orchestrator/loop.py:344-361 | propose_fix starts only after the diagnosis was tagged with a hypothesis left |
| RunProperties.AbortEndsTheRun | orchestrator/loop.py:367-391 | After a poll that saw an abort: no call, no further poll, no state but ABORTED, and every save shows the operator's reason |
| RunProperties.PollSeesTheOperator | orchestrator/loop.py:384-386 | A poll returns the joint effect of the operator's writes so far |
| RunProperties.PollSeesAbortIff | orchestrator/loop.py:384-391 | A poll sees an abort exactly if one was there from the start or has been requested by then |
| RunProperties.PersistedStatesFormAPath | orchestrator/loop.py:174-363 | Persisted states form a path of the state machine; states only passed through never show |
| RunProperties.PauseIsSavedAtPollPoints | orchestrator/loop.py:394-403 | A saved PAUSED follows a poll that asked for it, at one of the five poll points |
| RunProperties.PauseHoldsTheRun | orchestrator/loop.py:376-404 | Over every allowed trace: between a poll that asks for a pause and the next one nothing starts |
| RunProperties.PauseIsShownBeforeThePoll | orchestrator/loop.py:394-404 | A saved PAUSED precedes the next poll, and every poll since that save asks for the pause |
| RunProperties.PauseIsSavedOnce | orchestrator/loop.py:381-404 | Between two saves of PAUSED a poll found the pause lifted |
| RunProperties.PollFollowsACheck | orchestrator/loop.py:206-211 | Where both gates are due, the poll follows a budget check within the caps that no agent call has made stale |
| RunProperties.HooksRunInOrder | orchestrator/loop.py:196-290 | In every allowed trace the hooks are a beginning of capture, drive, verification, diagnostics, or diagnostics right after the drive |
| RunProperties.CallsFollowTheHooks | orchestrator/loop.py:196-231 | The injection and the cleanup are called from within the drive: after the capture and before any other hook |
| RunProperties.AnswersAreOnRecord | orchestrator/loop.py:177-362 | An agent that was called and answers has its answer on record at the end, however the run ends |
| RunProperties.AgentsRunInSession | orchestrator/loop.py:133-137 | A call lies between the opening and the closing of the session |
| RunOutcome.RecordedMeans | orchestrator/loop.py:174-363 | What a RECORDED run has been through: gates, healthy baselines, a successful injection, verifications, and a diagnosis and a fix exactly if called for |
| RunOutcome.RecordedIff | orchestrator/loop.py:174-363 | The exact condition for RECORDED over all traces, with or without a guard |
| RunOutcome.RecordedIffUnguarded | orchestrator/loop.py:174-363 | Without a polling guard the drive's part of the condition is known before the run |
| RunOutcome.RegressedIsPersistedIff | orchestrator/loop.py:275-299 | REGRESSED is persisted exactly if an agent or the plugin objects |
| RunOutcome.AbortIsWarranted | orchestrator/loop.py:128-363 | Every persisted abort goes with its reason |
| RunOutcome.OverspendEndsTheRun | orchestrator/loop.py:406-430 | A failed budget check is the last event before the abort that could have started anything |
| RunOutcome.SpendIsTheBill | orchestrator/loop.py:526-530 | Spend is the sum of the costs of the calls made, neither more nor less |
| RunResidue.ResidueAlways | orchestrator/loop.py:219-240 | At any moment of a run at most one resource of the experiment stands too many, and then a cleanup is owed |
| RunResidue.NoFaultOutlivesTheRun | orchestrator/loop.py:219-240 | Unless the injection is cut off without a cleanup to come, the cluster is at the end as before |
| RunResidue.NoFaultOutlivesTheRunIff | orchestrator/loop.py:219-240 | For a given trace: all agents whose deletes succeed leave nothing behind exactly if the injection was not cut off without a cleanup to come |
| RunResidue.SoundPluginLeavesNothing | orchestrator/loop.py:219-240 | The same told from plugin and agent: it is enough that neither workload nor guard can break, or trip without a cleanup |
| RunResidue.CutInjectionLeavesAFault | orchestrator/loop.py:232-234 | After such a cut the first fault stands although every delete would have succeeded |
| RunLeak.NoFaultOutlivesAnyRunIff | orchestrator/loop.py:219-240 | Over all allowed traces of a set-up, with or without a cleanup: nothing is ever left behind if and only if the run cannot get to the injection (gates, baselines, budget, set-up, flags, guard factory), or its plugin cannot stop the injection but by a signal that a cleanup follows |
| RunLeak.InjectionNeeds | orchestrator/loop.py:124-222 | An injection that ends in some run proves each of these conditions of the set-up |
| RunLeak.CutRun | orchestrator/loop.py:219-234 | Every other set-up has a complete trace, in the order in which the loop leaves its events, in which the injection is cut off and no cleanup follows |
| RunLeak.RaisingWorkloadLeavesAFault | orchestrator/loop.py:232-234 | The smallest case: one pod kill and a run_test that raises, on an empty cluster, ends with the resource still there |
| PluginHost.EverythingRunsOnceIff | plugins/host.py:139-204 | Every callback that comes to be registered runs exactly once, with one line of audit each, if and only if the test scope was never opened or no environment callback registers another |
| PluginHost.LateCompensationIsLost | plugins/host.py:198-204 | A defer from teardown_env after the test scope was opened is never run |
| PluginHost.FlatTeardownIsReverse | plugins/host.py:178-204 | If callbacks register nothing, teardown is the reverse of registration, test scope before environment scope |
| PluginHost.OrderPops | plugins/host.py:139-151 | Popping a stack whose callbacks push onto it follows the reference order |
| PluginHost.OrderRunsEverything | plugins/host.py:139-151 | The reference order runs each registered callback, directly or transitively, exactly once |
| PluginHost.TeardownHooksAreRegistered | plugins/host.py:153-172 | Whichever set-up hook raises, the teardown hook of each scope that was opened lies below everything the scope's hooks registered |
| PluginHost.SetUpRunsInOrder | plugins/host.py:153-172 | The stages run are a beginning of validate, provision_env, await_ready, seed, setup_test, and all five if none raises; environment and test stack hold each scope's teardown hook first and then what each stage registered, in that order |
| PluginHost.EachStepRegisters | plugins/host.py:207-309 | A hook or drive in between registers on the stack of the scope that is open and leaves its line of the audit trail; a workload is on record as failed exactly if it came to its end by raising |
| PluginHost.RegisteredIsRun | plugins/host.py:139-204 | Whatever set-up, a hook or the drive has registered by the time of the teardown is run by it |
| PluginHost.TrailTellsWhatRan | plugins/host.py:311-339 | One line of the audit trail per callback run, under its name and stage, failed exactly if it raised |
| PluginHost.SettledIff | plugins/host.py:216-259 | Task by task, exactly which of injection, workload and guard came to its end and which was cancelled, for each way the drive ends |
| PluginHost.PluginSession.Enter | plugins/host.py:153-172 | Sets up as the reference order of the five stages says and passes on the failure of the first hook that raises, after unwinding exactly what was registered by then |
| PluginHost.PluginSession.Exit | plugins/host.py:174-188 | Runs the test stack and then the environment stack in the reference order and records each callback; what lands on the closed test stack is left |
| PluginHost.PluginSession.RunTeardown | plugins/host.py:311-339 | A callback that raises is recorded as failed and swallowed; what it defers goes to the scope that is open |
| PluginHost.PluginSession.Invoke | plugins/host.py:285-309 | Runs, skips or fails a hook with the matching audit line; what a raising hook deferred before stays registered |
| PluginHost.PluginSession.Verify | plugins/host.py:268-274 | Answers the plugin's verdict, None without a hook, and raises exactly if the hook does |
| PluginHost.PluginSession.DriveRun | plugins/host.py:216-259 | Ends under every order of completions: returned exactly if both work tasks ended without exception and no guard failure was seen, else with the exception of a task that failed in the first wake-up with a failure; no task is left running |
| PluginHost.PluginSession.Await | plugins/host.py:237-259 | The waiting loop ends for every schedule, with each started task finished or cancelled, at the first wake-up in which a task has failed or all work is done |
| Store.WritersDoNotInterfere | orchestrator/store.py:142-167 | After any operations by either writer the row is the last saved blob next to the effect of the control writes: neither disturbs the other |
| Store.EveryInterleavingAgrees | orchestrator/store.py:142-167 | The row does not depend on how saves and control writes are interleaved |
| Store.InterleavingKeepsBoth | orchestrator/store.py:142-167 | An interleaving keeps each writer's own sequence |
| Store.WritesBeforeTheRowAreLost | orchestrator/store.py:290-319 | Control writes for a row that does not exist yet create nothing |
| Store.AbortIsSetIff | orchestrator/store.py:273-336 | From any table, under any saves, writes and clearings: an abort is set in the end if and only if one was requested when the row was there, or was set all along, and nothing cleared the flags since |
| Store.PauseIsSetIff | orchestrator/store.py:273-336 | The same for a pause, where also nothing may be written about it since |
| Store.LateAbortIsCleared | orchestrator/store.py:303-336 | An abort written between the last poll and the terminal clearing finds its row and is gone all the same |
| Store.RowExistsIff | orchestrator/store.py:142-167 | A row is there exactly if it was, or has been saved |
| Store.AbortSticks | orchestrator/store.py:303-319 | A requested abort stays requested whatever is written later, until the flags are cleared |
| Store.LastWordCounts | orchestrator/store.py:290-319 | The last write about the pause, and the last abort reason, are the ones that count; what is not spoken of stays |
| Store.ExperimentStore.Save | orchestrator/store.py:142-167 | Replaces the audit blob and keeps the control flags of an existing row |
| Store.ExperimentStore.LoadControl | orchestrator/store.py:273-288 | Reads the three flags; a missing row reads as none |
| Store.ExperimentStore.SetPause | orchestrator/store.py:290-301 | Changes the pause flag of an existing row only, and reports whether there was one |
| Store.ExperimentStore.RequestAbort | orchestrator/store.py:303-319 | Sets abort and reason of an existing row only, and reports whether there was one |
| Store.ExperimentStore.ClearControl | orchestrator/store.py:321-336 | Resets the flags and keeps the blob |
| Safety.CheckClusterAllowed | orchestrator/safety.py:28-38 | Refuses exactly if some denylist entry occurs in the lower-cased context |
| Safety.EntryIsEffectiveIffLowerCase | orchestrator/safety.py:28-38 | A denylist entry can ever match if and only if it has no upper-case letter |
| Safety.EntryIsEffectiveIff | orchestrator/safety.py:28-38 | The same for any idempotent lower-casing of characters: an entry can match if and only if lower-casing leaves it alone |
| Safety.CheckNamespaceAnnotation | orchestrator/safety.py:41-67 | Passes exactly if not required or annotated as asked; unreadable annotations fail |
| Safety.CheckBlastRadius | orchestrator/safety.py:70-85 | Refuses exactly several faults without permission or a fault longer than allowed |
| Safety.CheckBaselineHealthy | orchestrator/safety.py:88-104 | Refuses exactly an unsteady tester or a critical or high finding |
| Safety.BudgetTracker.SoftWarnDue | orchestrator/budget.py:24-30 | Warns once, at the first look past the soft cap |
| Safety.BudgetTracker.HardExceeded | orchestrator/budget.py:32-36 | Holds exactly if either hard cap has been reached |
| Suppression.KeySeparates | orchestrator/suppression.py:92-100 | Among plain hypotheses the canonical key tells exactly fix class, paths up to order, and summary apart |
| Suppression.AlikeSameVerdict | orchestrator/suppression.py:59-78 | Hypotheses that look alike and share the key are matched by the same rules |
| Suppression.PathOrderIsIrrelevant | orchestrator/suppression.py:59-78 | Neither key nor rules depend on the order of the paths |
| Suppression.ApplyToDiagnosis | orchestrator/suppression.py:128-149 | Adds exactly the fingerprints of hypotheses some rule matches, once each, behind those already there, noting the first rule |
| Suppression.FaithfulIffKeysAgree | orchestrator/suppression.py:128-155 | For all rules and collision-free digests: only matched hypotheses get muted, if and only if hypotheses that share a key look alike to every rule |
| Suppression.ActiveMeansNoRuleMatches | orchestrator/suppression.py:152-155 | What stays active is exactly what no rule matches and was not suppressed before |
| Suppression.RuleFailsIff | orchestrator/suppression.py:59-90 | A rule fails to match exactly if it has expired or one of the fields it sets does not fit |
| Suppression.CommaPathsCollide | orchestrator/suppression.py:128-155 | A path with a comma shares its key with two paths, so a rule about one mutes the other |
| Chaos.ClaudeChaosAgent.Execute | agents/chaos/agent.py:77-145 | For every outcome of every await, the cluster, the calls made and the way out are those of the reference execution, which succeeds exactly as ExecuteSucceedsIff says |
| Chaos.ClaudeChaosAgent.Cleanup | agents/chaos/agent.py:153-179 | The nested deletion loop does to the cluster what the reference sweep does |
| Chaos.ExecuteSucceedsIff | agents/chaos/agent.py:77-145 | The execution succeeds if and only if the plan is admissible (every fault known, several only if allowed) and every await of its script came back fine: the quiet windows, and apply, sleep and delete of each fault in order; then exactly that script was awaited |
| Chaos.CleanupTriesEverything | agents/chaos/agent.py:153-179 | Whatever raises, a cleanup lists every kind and tries every resource listed; what it leaves of the experiment has a failed call to blame |
| Chaos.CleanupIsExact | agents/chaos/agent.py:153-179 | If deletes succeed, exactly the resources of this experiment in this namespace go, and everything else stays in order |
| Chaos.ExecuteLeavesNothing | agents/chaos/agent.py:91-145 | If deletes succeed, success and failure both leave the cluster as it was |
| Chaos.ExecuteLeavesAtMostOne | agents/chaos/agent.py:91-145 | Whatever happens, a cancellation included, at most one resource of the experiment is left |
| Chaos.CleanupAfterCancelLeavesNothing | agents/chaos/agent.py:91-179 | A cleanup after a cancelled execution restores the cluster |
| Chaos.CancelledInjectionLeavesFault | agents/chaos/agent.py:91-145 | A cancellation while the first fault stands leaves it there, although deletes would succeed |
| Chaos.ExecuteIsNotCancelled | agents/chaos/agent.py:91-145 | Without a cancellation the execution always comes to an end of its own |
| Chaos.SuffixSeparatesNames | agents/chaos/faults/_render.py:26-33 | Experiments whose ids differ in the last eight characters never share a resource name |
| Chaos.RenderedIs | agents/chaos/faults/_render.py:26-60 | A rendered resource has the fault's kind, the plan's namespace, the labels of experiment and fault, and a name made of fault and experiment id |
| LineReader.Reader.Loop | firmware/chaos-attacker-esp32/src/main.cpp:215-240 | Draining what has arrived updates buffer and output as the byte-wise specification says; the buffer index stays in bounds |
| LineReader.ReaderFollowsReference | firmware/chaos-attacker-esp32/src/main.cpp:215-240 | For lines of at most 512 characters besides CR: whatever the chunks, the output is that of splitting the whole stream |
| LineReader.NothingRefusedIffLinesFit | firmware/chaos-attacker-esp32/src/main.cpp:215-240 | No line is refused exactly if all have at most 511 characters |
| LineReader.ExpectedLineByLine | firmware/chaos-attacker-esp32/src/main.cpp:215-240 | The reference, line by line: below 512 bytes handed on as its C string unless empty, at 512 refused, and what is not finished kept |
| LineReader.OverlongLineIsSkipped | firmware/chaos-attacker-esp32/src/main.cpp:228-237 | A line of 512 bytes or more that arrives whole is refused once, and the next line is read from its beginning |
| LineReader.CutInvisibleIffLinesFit | firmware/chaos-attacker-esp32/src/main.cpp:215-240 | The output is independent of the chunking if and only if no line is longer than 512 characters |
| LineReader.VisibleCut | firmware/chaos-attacker-esp32/src/main.cpp:228-237 | For every stream with a longer line there is a cut that changes the output |
| LineReader.Terminated | firmware/chaos-attacker-esp32/src/main.cpp:221-222 | The handler sees the line up to the first NUL |
| Hardware.AttackDevice.HandleInject | firmware/chaos-attacker-esp32/src/main.cpp:84-142 | Accepts exactly in bench mode with a permitted duration, a known fault and a free slot; fills the first free slot under a fresh handle; otherwise changes nothing; each refusal with its own text |
| Hardware.AttackDevice.HandleCleanup | firmware/chaos-attacker-esp32/src/main.cpp:144-162 | Frees exactly the slot of that handle, or says it is gone |
| Hardware.AttackDevice.HandleReset | firmware/chaos-attacker-esp32/src/main.cpp:164-170 | Frees all four slots |
| Hardware.AttackDevice.PollExpirations | firmware/chaos-attacker-esp32/src/main.cpp:175-184 | Frees exactly the slots that are due |
| Hardware.EverReachedIsConsistent | firmware/chaos-attacker-esp32/src/main.cpp:84-184 | In every state any sequence of commands and polls can reach, at most four faults are active, under distinct handles that were issued |
| Hardware.RunningIffAccounted | firmware/chaos-attacker-esp32/src/main.cpp:84-184 | Over any such sequence the active faults are exactly those an accepted inject started and no later cleanup, reset or due poll stopped |
| Hardware.HandleInjective | firmware/chaos-attacker-esp32/src/main.cpp:131-133 | Handles never repeat |
| Hardware.HandleReads | firmware/chaos-attacker-esp32/src/main.cpp:131-133 | A handle is its prefix and the number, with at least five digits |
| Hardware.PollIsExactIff | firmware/chaos-attacker-esp32/src/main.cpp:175-184 | A poll is right for every permitted duration if and only if it comes within one period or its remainder is past the longest duration |
| Hardware.SimulatedHardwareIO.InjectFault | agents/chaos/hardware_io.py:225-247 | Raises exactly if the bench does and then changes nothing; else opens the next handle, which was not active |
| Hardware.SimulatedHardwareIO.Cleanup | agents/chaos/hardware_io.py:249-252 | Closes exactly that handle; closing it again is no error |
| Hardware.SimHandleInjective | agents/chaos/hardware_io.py:228-229 | Simulator handles never repeat |
| Hardware.HilCleanup | agents/chaos/hardware_io.py:391-399 | The client's cleanup never raises on a device that answers, whether or not the handle was still active |
| Hardware.AlreadyGoneSaysAlready | agents/chaos/hardware_io.py:394-399 | The device's refusal of a handle that is gone is one the client takes for success |
| Hardware.HardwareChaosAgent.Execute | agents/chaos/hardware_agent.py:96-184 | Reports success if and only if the plan is admissible, the gates pass and no call of the run on the bench raises; then the events are one injection and one cleanup per fault in order, and the pauses are the plan's. Otherwise the trail tells at which fault it broke off. If cleanup succeeds, every handle it opened is closed on every way out |
| Hardware.HardwareChaosAgent.RunFaults | agents/chaos/hardware_agent.py:141-158 | Raises exactly if some call raises; then at most the handle of the fault in progress is open, and the trail is that of the faults before it and the point it broke off |
| Harness.Harness.Perform | agents/_harness.py:187-214 | Running an instrumented call changes slot and ledger as the reference semantics of nested calls say, raising or not |
| Harness.ClosedCarriesItsOwn | agents/_harness.py:80-124 | A closed invocation carries exactly the positive costs reported while it was innermost |
| Harness.OneInvocationPerCall | agents/_harness.py:187-214 | Every call, nested or raising, leaves exactly one invocation |
| Harness.CostIsConserved | agents/_harness.py:80-91 | The invocations a call leaves sum up to all positive costs reported inside it, at any depth |
| Harness.SharedHarnessIsCumulative | regression/suite_runner.py:62-74 | On a harness that is shared between runs, the total is what was there before plus this run's cost |
| Llm.CompleteWithTools | agents/_llm.py:147-238 | Conversation k sent is exactly the system text, the user text and, for each earlier response, its assistant turn and one reply per call with the result that call had; each is well formed; at most max_turns completions; the loop stops at the first turn with a reason to; text, spend, trace and reason are those of the responses |
| Llm.StopIff | agents/_llm.py:180-227 | Which reason stops the loop: no tool called; failing that, one single call made more often than the limit in a row; failing that, a positive budget reached |
| Llm.LastTextIs | agents/_llm.py:177-184 | The final text is that of the last response that has one |
| Llm.RunTools | agents/_llm.py:187-198 | One reply per call, same ids, same order |
| Llm.GrowsByExchange | agents/_llm.py:185-197 | An assistant turn with calls followed by one reply each keeps the conversation well formed |
| Llm.ExecuteOneTool | agents/_llm.py:279-327 | An unknown tool, unparsable arguments and a raising handler each become an error reply |
| Llm.CountRepeats | agents/_llm.py:203-219 | Stops exactly when one single call has been repeated more than the limit in a row |
| Llm.RepeatsAreBounded | agents/_llm.py:203-219 | Never more than limit + 1 identical single calls in a row |
| Llm.SpendStaysBelowBudget | agents/_llm.py:221-227 | Before the last turn the spend is below a positive budget |
| Stats.SummaryIgnoresOrder | shared/contracts.py:229-262 | The summary does not depend on the order of the samples |
| Stats.PercentilesBoundedAndMonotone | shared/contracts.py:248-262 | Percentiles lie between smallest and largest sample and grow with the percentage |
| Stats.PercentileInterpolates | shared/contracts.py:248-262 | At rank k + f of the n - 1 steps, a percentile is the part f of the way from sorted sample k to the next |
| Stats.SummaryReads | shared/contracts.py:229-262 | A summary is the mean, the variance and the 50th, 95th and 99th percentile of the sorted samples; nothing without samples |
| Stats.SummaryMonotone | shared/contracts.py:229-262 | Raising samples pointwise raises mean and every percentile weakly |
| Stats.ShiftedIffFlagged | agents/tester/agent.py:38-61 | The quotient test on the standard deviation is the squared test on the variance |
| Stats.ShiftedIffFar | agents/tester/agent.py:38-61 | A mean counts as shifted exactly if there is some deviation and it is more than three of it away, on either side |
| Stats.SampleWithinBounds | agents/tester/agent.py:38-61 | No sample lies further from the mean than sqrt(n - 1) standard deviations |
| Stats.SmallBaselineNeverFlagsItsRange | agents/tester/agent.py:38-61 | With at most ten baseline samples no mean within their range is flagged |
| Stats.NeverFlagsItsRangeIffAtMostTen | agents/tester/agent.py:38-61 | That holds for all samples of size n if and only if n is at most 10 |
| Drift.CompareToBaseline | agents/tester/agent.py:38-61 | Names exactly the metrics whose mean left the three-sigma band of the last baseline sample of that name |
| Drift.AnomalousIff | agents/tester/agent.py:38-61 | Reported are exactly the metrics the baseline holds with some deviation whose new mean is more than three standard deviations, either way, from the one listed last |
| Drift.VerifyAcceptsTheBaselineRange | agents/tester/agent.py:38-61 | A verify mean within the range of at most ten raw baseline samples is accepted |
| Drift.WorseSamplesStayRegressed | regression/drift.py:98-123 | Once flagged, a metric stays flagged when its samples get worse, in either direction |
| Drift.RegressesIff | regression/drift.py:98-123 | A metric regresses exactly if the golden statistic is above the floor and the current one has moved in the worse direction by more than the permitted ratio |
| Drift.GoldensAre | regression/drift.py:70-87 | Frozen are the scenarios with a baseline that measured cleanly, each as its last such verdict has it |
| Drift.StatisticsFollowSamples | regression/drift.py:98-123 | The chosen statistic follows pointwise domination |
| Drift.CompareMetrics | regression/drift.py:126-156 | One assessment per threshold, against the last samples of its metric; missing ones never regress |
| Drift.DriftReport | regression/drift.py:159-212 | One entry per verdict; untrustworthy ones unassessed, unknown ones without golden, the rest with both differences and all metrics |
| Drift.FreezeThenCompareIsClean | regression/drift.py:70-87 | A run against its own goldens reports no regressed scenario if none was measured twice |
| Drift.RoundTripIsCleanIff | regression/drift.py:70-87 | For given scenarios and outcomes, whatever was measured: the round trip is clean if and only if no scenario was measured twice |
| Drift.MeasuredTwiceDrifts | regression/drift.py:70-87 | Two trustworthy verdicts of one scenario: evidence for which the round trip reports a regression |
| Glob.TranslationPreservesMeaning | agents/fixer/policy.py:113-117 | For every pattern and path the regular expression built by three replacements accepts exactly what the direct matcher accepts |
| Glob.TranslateIsRendered | agents/fixer/policy.py:113-117 | Escaping and replacing token by token commute, although replacements overlap |
| Glob.RenderedParses | agents/fixer/policy.py:113-117 | The rendered text parses to the intended expression, literals that are metacharacters included |
| Glob.NewlinesMatterIff | agents/fixer/policy.py:113-117 | A path is matched as the wildcards plainly read, by every pattern, if and only if it holds no newline |
| Glob.NewlinesAside | agents/fixer/policy.py:113-117 | On paths without a newline the matcher is the plain one for deep, single and one-character wildcards |
| FixerPolicy.NothingDenied | agents/fixer/policy.py:89-102 | No path is reported exactly if no denylist pattern matches a path as normalized |
| FixerPolicy.Reasons | agents/fixer/policy.py:93-102 | One explanation per denied path, in order, naming a pattern that matches it |
| FixerPolicy.OwnersFor | agents/fixer/policy.py:161-169 | Owners of the last rule that owns the path |
| FixerPolicy.LastMatchDecides | agents/fixer/policy.py:161-169 | Rules before the last match have no say |
| FixerPolicy.AnchoredIff | agents/fixer/policy.py:175-189 | For every pattern, on paths without a newline: a leading slash anchors it to the root, as documented, if and only if the rest has another slash and does not begin, stars aside, with a slash or a question mark, or has none and reaches any depth by itself (or can match no path at all) |
| FixerPolicy.LiteralAnchoredIff | agents/fixer/policy.py:175-189 | Without wildcards: anchored if and only if the rest has another slash, a trailing one included |
| FixerPolicy.LeavesTheRoot | agents/fixer/policy.py:175-189 | A slash and a bare name own that name in a directory |
| FixerPolicy.BareNameOwnsEverywhere | agents/fixer/policy.py:175-189 | A bare name owns exactly the paths whose last part it is, at any depth |
| FixerPolicy.ProposeFix | agents/fixer/agent.py:47-112 | Without a hypothesis, for a class without strategy or below the confidence asked for there is no proposal; otherwise it is what the strategy returned, unless one of its paths is denied, which turns it into none with the reasons |
| Merge.MergeFindings | agents/tester/hypothesizer.py:371-394 | The two-level loop with replacement computes the reference merge |
| Merge.AbsorbIs | agents/tester/hypothesizer.py:371-394 | A candidate without a duplicate is appended; else it takes the place of its first duplicate if more confident, and nothing else changes |
| Merge.TiesKeepTheirOrder | agents/tester/hypothesizer.py:371-394 | Equally confident findings stay in the order they were taken in |
| Merge.DuplicatesIff | agents/tester/hypothesizer.py:396-418 | Two hypotheses are duplicates exactly if they name the same fault and share a reference as normalized |
| Merge.NormalizeRefIs | agents/tester/hypothesizer.py:405-418 | A reference is compared by path and first line, with forward slashes, whether or not it names a range |
| Merge.MergedIsSortedSelection | agents/tester/hypothesizer.py:371-394 | Only inputs, by falling confidence |
| Merge.EveryInputIsRepresented | agents/tester/hypothesizer.py:371-394 | Each input is linked by a chain of duplicates to an output at least as confident |
| Merge.TransitiveMergeKeepsTheBest | agents/tester/hypothesizer.py:371-394 | Where duplication is transitive: one output per class, no input of the class more confident |
| Merge.DuplicateFreeIffTransitive | agents/tester/hypothesizer.py:371-394 | The output is free of duplicates for all inputs over given keys if and only if duplication is transitive on them |
| Merge.ReplacementOverlaps | agents/tester/hypothesizer.py:371-394 | A replacement can overlap a later entry |
| Merge.OneSitePerHypothesis | agents/tester/hypothesizer.py:371-418 | With one normalized reference each: exactly one best item per fault and reference |
| Merge.NormalizeRefIdempotent | agents/tester/hypothesizer.py:405-418 | Normalizing a reference twice changes nothing more |
| Merge.SeveralSitesLeaveDuplicates | agents/tester/hypothesizer.py:371-402 | Three hypotheses, one with two references, that leave two duplicates |
| Merge.OnePathPerRootCause | agents/diagnostician/diagnoser.py:395-425 | With at most one path each: exactly one best item per class |
| Merge.TruncationKeepsTheTop | agents/diagnostician/diagnoser.py:369-392 | The first items of the merged list, as many as asked for; nothing cut off is more confident than anything kept |
| Coverage.Render | regression/coverage.py:33-70 | The cells are those of the reference matrix over the sorted fault axis |
| Coverage.NotApplicableNeedsEvidence | regression/coverage.py:72-106 | A cell is NA exactly if nothing covers it, the journey has a footprint, the fault has targets, and none of them is on it |
| Coverage.CoveredIff | regression/coverage.py:33-70 | A cell is covered exactly if some scenario exercises the journey under the fault, and names the last one that does |
| Coverage.CellIsAt | regression/coverage.py:33-70 | Cells go fault by fault, and journey by journey within a fault |
| Coverage.UsedFaultsAre | regression/coverage.py:38-51 | The fault axis holds the catalogue's faults, in its order, whose category some scenario is in |
| Coverage.MatrixIsPartitioned | shared/contracts.py:838-853 | covered + gaps + na is faults times journeys |
| Coverage.FootprintsOnlyPromote | shared/contracts.py:838-853 | More footprints turn cells only from UNKNOWN to NA |
| Coverage.FootprintsNeverLowerComprehensiveness | shared/contracts.py:855-864 | More footprints never lower comprehensiveness; it is lost exactly if nothing was covered and no gap remains |
| Coverage.ComprehensivenessIs | shared/contracts.py:855-864 | The share of covered cells among those covered or a gap: undefined exactly without any, one exactly without a gap, zero exactly without a covered one |
| Coverage.SuiteFaultTargets | regression/relevance.py:92-111 | The targets of a fault are those of all its scenarios |
| Paging.ForEachExperiment | ui/server/src/store/sqlite-reader.service.ts:81-94 | Visits a beginning of the wanted rows, in order and once each; all of them if and only if there is no target app or no foreign row lies on an earlier page than a wanted one |
| Paging.CountExperiments | ui/server/src/store/sqlite-reader.service.ts:140-176 | Counts all wanted rows under the same condition, and too few otherwise |
| Paging.WalkIsCompleteIff | ui/server/src/store/sqlite-reader.service.ts:100-176 | The condition, told from the rows alone |
| Paging.CutIs | ui/server/src/store/sqlite-reader.service.ts:100-132 | A page starts at the offset, not below the first row, and has as many rows as asked for, at least one and at most 500, as far as there are any |
| Paging.UnfilteredWalkIsComplete | ui/server/src/store/sqlite-reader.service.ts:81-94 | Without a target app every row is visited exactly once |
| Paging.OneForeignRowHidesTheRest | ui/server/src/store/sqlite-reader.service.ts:140-176 | One foreign row in front leaves 499 counted of any number |
| Aggregates.GetLlm | ui/server/src/aggregates/aggregates.service.ts:26-91 | Totals, per-agent slots and per-experiment sums are folds over the records' invocations |
| Aggregates.LlmRollupsAgree | ui/server/src/aggregates/aggregates.service.ts:26-91 | Per-agent and per-experiment sums both equal the totals |
| Aggregates.LlmRollupMeans | ui/server/src/aggregates/aggregates.service.ts:26-91 | Totals are those of all invocations; each agent that made one has one slot with what its own report, the biggest spender first; each experiment has what its own report |
| Aggregates.BreakdownAgrees | ui/server/src/aggregates/aggregates.service.ts:26-91 | A breakdown built by updating a map has each key's share and the grand total |
| Aggregates.BreakdownMeans | ui/server/src/aggregates/aggregates.service.ts:26-91 | One slot for each key that occurs, with the sum of that key's items |
| Aggregates.BreakdownKeys | ui/server/src/aggregates/aggregates.service.ts:26-91 | One slot per key, exactly the keys that occur |
| Aggregates.GetFindings | ui/server/src/aggregates/aggregates.service.ts:93-160 | Total, confidence sum, per-class counts and histogram of all hypotheses |
| Aggregates.FindingsAgree | ui/server/src/aggregates/aggregates.service.ts:93-160 | Five buckets and all classes each sum up to the total |
| Aggregates.FindingsItemsAre | ui/server/src/aggregates/aggregates.service.ts:93-160 | Counted are the hypotheses of every diagnosis, each once under its class and once in the band its confidence is in |
| Aggregates.BucketFor | ui/server/src/aggregates/aggregates.service.ts:227-234 | The bucket's bounds hold the confidence; 1.0 belongs to the last |
| Aggregates.GetFixes | ui/server/src/aggregates/aggregates.service.ts:162-207 | Proposals by action and by day |
| Aggregates.FixesAgree | ui/server/src/aggregates/aggregates.service.ts:162-207 | Both breakdowns sum up to the number of proposals |
| Aggregates.FixItemsAre | ui/server/src/aggregates/aggregates.service.ts:162-207 | Counted are the records with a proposal, each once under its action and once under its day |

## Findings

Properties that do not hold of the code as one would expect. For each, the members that give a failing
input and the exact condition under which the property does hold.

| where | what fails | failing input | holds exactly if |
|---|---|---|---|
| orchestrator/loop.py:219-240 | an injected fault can outlive the run when the injection is cut off by anything but a tripped guard, or the agent cannot clean up: no cleanup is asked for | RunLeak.RaisingWorkloadLeavesAFault, RunLeak.CutRun | RunLeak.NoFaultOutlivesAnyRunIff: the run cannot get to the injection, or workload and guard raise nothing but a signal that a cleanup follows |
| plugins/host.py:198-204 | a `ctx.defer` during environment teardown lands on the closed test stack and never runs | PluginHost.LateCompensationIsLost | PluginHost.EverythingRunsOnceIff: the test scope was never opened, or no environment callback defers |
| ui/server/src/store/sqlite-reader.service.ts:133-176 | the target-app filter is applied after LIMIT, so walks and counts stop early | Paging.OneForeignRowHidesTheRest | Paging.WalkIsCompleteIff: no foreign row lies on an earlier page than a wanted one |
| regression/drift.py:70-87 | comparing a run with goldens frozen from itself can report regressions | Drift.RepeatedScenarioDrifts, Drift.MeasuredTwiceDrifts | Drift.RoundTripIsCleanIff: no scenario was measured twice with a trustworthy baseline |
| agents/tester/hypothesizer.py:371-402 | merged hypotheses can still be duplicates of each other | Merge.ReplacementOverlaps, Merge.SeveralSitesLeaveDuplicates | Merge.DuplicateFreeIffTransitive: duplication is transitive on the keys at hand |
| firmware/chaos-attacker-esp32/src/main.cpp:228-237 | what is skipped after an overlong line depends on how bytes arrive | LineReader.VisibleCut, LineReader.OverflowCutShows | LineReader.CutInvisibleIffLinesFit: no line has more than 512 characters besides CR |
| firmware/chaos-attacker-esp32/src/main.cpp:175-184 | a late poll can take an elapsed fault for a fresh one | Hardware.PollAWholePeriodLateMisses | Hardware.PollIsExactIff: less than a clock period has passed, or the remainder exceeds the longest duration |
| agents/tester/agent.py:38-61 | a mean between two baseline samples can be flagged | Stats.SpikeMoments | Stats.NeverFlagsItsRangeIffAtMostTen: at most ten samples |
| orchestrator/suppression.py:92-155 | a rule can mute a hypothesis it does not match | Suppression.CommaPathsCollide | Suppression.FaithfulIffKeysAgree: hypotheses that share a key look alike to every rule |
| orchestrator/safety.py:28-38 | a cluster denylist entry may never match | any entry with an upper-case letter | Safety.EntryIsEffectiveIffLowerCase, Safety.EntryIsEffectiveIff: lower-casing leaves the entry alone |
| orchestrator/store.py:290-336 | a pause or an abort can be lost | Store.WritesBeforeTheRowAreLost: written before the first save; Store.LateAbortIsCleared: written between the last poll and the terminal clearing (orchestrator/loop.py:359-363, 516-524) | Store.AbortIsSetIff, Store.PauseIsSetIff: the row was there and nothing cleared the flags since; RunTheorems.AbortWasHeardIff: a poll came after the request |
| agents/fixer/policy.py:113-117 | no wildcard but the single star covers a newline in a path | Glob.NewlineEscapes | Glob.NewlinesMatterIff: the path has no newline |
| agents/fixer/policy.py:175-189 | a leading slash is said to anchor a CODEOWNERS pattern to the root and may not | FixerPolicy.MakefileLeavesTheRoot: `/Makefile` owns `sub/Makefile`; FixerPolicy.LeavesTheRoot for any bare name | FixerPolicy.AnchoredIff, FixerPolicy.KeepsAnchor: with another slash, the rest does not begin, stars aside, with a slash or a question mark; without one, a double star stands in front of anything but wildcards. FixerPolicy.LiteralAnchoredIff: without wildcards it takes another slash |

Where the code and its documentation disagree, the model follows the code: FIX_DECLINED is entered
directly from DIAGNOSED (orchestrator/loop.py:348-357, against docs/ARCHITECTURE.md:144-149); the operator
can set the flags again after the terminal clearing, as control writes do not look at the state
(orchestrator/store.py:290-319); a guard that trips and a diagnostics hook that then raises abort the run
as AGENT_FAILURE, not SLO_BREACH (orchestrator/loop.py:223-231); "discard the rest of the line" discards
what has arrived (firmware/chaos-attacker-esp32/src/main.cpp:228-237).

## Left out

- Kubernetes client, HTTP and serial transports, YAML, JSON and SQLite: the store is a map of rows, the cluster a list of resources, the device is called directly.
- LLM content, prompts, static detectors and the rules of `StaticDiagnoser`: no decidable specification; answers are arbitrary.
- Floating point: values are reals, and a standard deviation is any non-negative number whose square is the variance.
- SHA-1: any function; injectivity is a hypothesis where it is needed.
- Wall-clock times, event details, notes, descriptions and the contents of diagnostics: nothing proved depends on them.
- `chaos abort --force`, which writes the audit blob behind a running orchestrator: outside the protocol.
- asyncio cancellation other than the drive's own, and any cancellation during teardown: exceptions only.
- Token counts in harness and LLM loop: kept and summed like the spend, which is modelled.
- The record is a value that the runner replaces, not an object shared with its callers: aliasing of the record is not captured.
- Operator writes arrive in batches, one before each store call; a pause for good is excluded, since the loop then polls for ever: `ExperimentRunner.Unblocked` says so.
- The events of an injection are noted when its drive is over, as nothing else is recorded meanwhile; which of several failures of one wake-up is seen first is arbitrary.
- RunLeak.CutRun: the trace has every event of such a run in the loop's order, but that some schedule of the runner leaves exactly it is not shown.
- RunLeak.NoFaultOutlivesAnyRunIff: over traces of allowed events, for the same reason.
- Compensations that the hooks of a drive register count as one list, and a workload that is cancelled is on record as ok.
- The fixer reads the first hypothesis even if that one is suppressed (agents/fixer/agent.py:50), so only that some hypothesis is active is guaranteed.
- Handle counters are unbounded: the overflow of the device's `int` is not modelled.
- Metric helpers of the simulated hardware; the five hardware safety gates count as one answer.
- Aggregates.GetLlm: without the counters of invocations with an LLM and the sorting by experiment, easy next to the sums.
- Aggregates.GetFindings: without `mean_confidence`, `by_file` and the `recent` list, easy next to the sums.
- Aggregates.GetFixes: without the counters by file, the `recent` list and the sorting by date, easy next to the sums.
- Safety.EntryIsEffectiveIffLowerCase: `Lower` covers ASCII letters; Safety.EntryIsEffectiveIff holds for any lower-casing by characters, not for Python's few characters whose lower case is longer.
- Chaos.ClaudeChaosAgent.Execute: an agent without a cluster backend, which declines before doing anything, is not modelled; a renderer that raises counts as an apply that fails without landing.
- Hardware.HardwareChaosAgent.Execute: a missing backend likewise; a renderer that raises counts as an injection that raises before doing anything.
- Hardware.HardwareChaosAgent.RunFaults: the same for the renderer.
- PluginHost.PluginSession.DriveRun: a guard factory that itself raises the signal of a tripped guard counts as one that raises anything else.
- What the loop passes to its agents (a plan, a journey, a prior report): an agent's answer is arbitrary, so nothing could depend on it.
- The events of the cluster agent's timeline and the category label of its resources: only its success is modelled, next to every call it makes.
- In a trace a save carries state, reason and end alone; that it stores the whole record is the contract of `ExperimentRunner.Save`.
- `Codeowners.parse` and the entries of the default denylist: text splitting and data.
- `parse_footprints`, `check_footprints`, validation of suppression rules, tables of suite runs and goldens, `resolve_model`, the unused gate `check_budget`: easy members.

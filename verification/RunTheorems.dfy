/** What a caller of `run` can rely on: the theorems about traces, for a run that is over. */
module RunTheorems {
  import opened Contracts
  import opened Prelude
  import opened RunTrace
  import opened RunProperties
  import opened RunOutcome
  import opened RunResidue
  import opened RunLoop
  import Chaos
  import Harness
  import PluginHost
  import Safety
  import Store
  import Suppression

  lemma TraceOf(r: ExperimentRunner)
    requires r.Over()
    ensures var s, trace := r.log.setup, r.log.trace;
            && Safe(s, trace) && Fold(s, trace) == r.log.view && trace[..|trace|] == trace
            && s.plan == r.plan && s.plugin == r.plugin && s.says == r.Says() && s.canCleanUp == r.agents.cleanup.Some?
            && r.log.view.at == Progress(r.record.state, false, Some(r.record.state)) && Terminal(r.record.state)
  {
    hide Safe, Fold, Terminal;
  }

  /** If the injection was started: plan allowed, namespace annotated where required, and both baselines
      answered and were healthy, by their agents' own reports. */
  lemma InjectionWasGuarded(r: ExperimentRunner, k: nat)
    requires r.Over() && k < |r.log.trace| && r.log.trace[k] == Started(Execute)
    ensures PlanAllowed(r.plan) && GatesFresh(r.log.setup, r.log.trace, k)
    ensures r.plan.safety.requireAnnotation ==>
      exists a :: r.agents.annotations.Some? && r.agents.annotations.value.answer == Answered(a) && Safety.Annotated(a)
    ensures exists t :: r.agents.testerBaseline.answer == Answered(t) && t.steady
    ensures exists b :: r.agents.securityBaseline.answer == Answered(b) && !b.criticalOrHigh
  {
    hide Safe, Fold, PlanAllowed, GatesFresh, Seen, SeenAnnotated;
    TraceOf(r);
    ExecuteIsGuarded(r.log.setup, r.log.trace, k);
    if r.plan.safety.requireAnnotation {
      assert r.agents.annotations.Some?;
      assert r.agents.annotations.value.answer == Answered(r.Says().annotations);
    }
    assert r.agents.testerBaseline.answer == Answered(r.agents.testerBaseline.answer.value);
    assert r.agents.securityBaseline.answer == Answered(r.agents.securityBaseline.answer.value);
  }

  /** If the fixer was asked, the diagnosis has a hypothesis that is neither suppressed beforehand nor
      tagged by a rule. */
  lemma FixerWasGuarded(r: ExperimentRunner, k: nat)
    requires r.Over() && k < |r.log.trace| && r.log.trace[k] == Started(ProposeFix)
    ensures r.agents.diagnose.answer.Answered? && r.world.rules.Answered? && r.Survives(r.agents.diagnose.answer.value)
    ensures GatesFresh(r.log.setup, r.log.trace, k)
  {
    hide Safe, Fold, GatesFresh, Seen;
    TraceOf(r);
    FixerIsGuarded(r.log.setup, r.log.trace, k);
  }

  /** A poll that saw an abort: no agent was called any more, and the record shows the abort with the
      operator's reason. */
  lemma AbortWasObeyed(r: ExperimentRunner, k: nat, n: nat)
    requires r.Over() && k < n < |r.log.trace| && r.log.trace[k].Polled? && r.log.trace[k].flags.abort
    ensures !r.log.trace[n].Started?
    ensures r.record.state == ABORTED && r.record.abortReason == Some(r.log.trace[k].flags.reason.GetOr(UserKill))
  {
    hide Safe, Fold;
    TraceOf(r);
    AbortEndsTheRun(r.log.setup, r.log.trace, k, n);
    KilledStays(r.log.setup, r.log.trace, k, |r.log.trace|);
  }

  /** The exact condition: the operator was heard if and only if a poll followed the request, or the
      abort was on the row from the start and there was a poll at all. A request that comes later is
      cleared with the flags. */
  lemma AbortWasHeardIff(r: ExperimentRunner)
    requires r.Over()
    ensures r.log.view.signals.killed.Some? <==>
      exists k | 0 <= k < |r.log.trace| :: r.log.trace[k].Polled?
        && (r.log.setup.flags.abort || AbortWritten(r.log.trace, k))
    ensures r.log.view.signals.killed.Some? ==>
      r.record.state == ABORTED && r.record.abortReason == r.log.view.signals.killed
  {
    hide Safe, Fold, AbortWritten;
    var s, trace := r.log.setup, r.log.trace;
    TraceOf(r);
    if r.log.view.signals.killed.Some? {
      KilledMeansRequested(s, trace, |trace|);
      var k :| 0 <= k < |trace| && Requests(trace[k], r.log.view.signals.killed.value);
      PollSeesAbortIff(s, trace, k);
    }
    if k :| 0 <= k < |trace| && trace[k].Polled? && (s.flags.abort || AbortWritten(trace, k)) {
      PollSeesAbortIff(s, trace, k);
      KilledStays(s, trace, k, |trace|);
    }
  }

  /** What the teardown of a run's session ran: each callback registered by set-up or a hook, and each
      those registered in turn, exactly once, if and only if the test scope was never opened or no
      environment callback registers another. */
  lemma TeardownRanEverythingIff(closed: PluginHost.PluginSession)
    requires closed.Unwound() && closed.plugin.Some?
    ensures var p := closed.plugin.value;
            var s := PluginHost.ResumedAll(p, PluginHost.SetUpOf(p), closed.mid);
            multiset(closed.ran) == PluginHost.Everything(s.env) + PluginHost.Everything(s.test) <==>
            !s.inTest || PluginHost.Flat(s.env)
  {
    var p := closed.plugin.value;
    var s := PluginHost.ResumedAll(p, PluginHost.SetUpOf(p), closed.mid);
    hide *;
    UnwoundRan(closed);
    PluginHost.EverythingRunsOnceIff(s.env, s.test, s.inTest);
  }

  lemma UnwoundRan(closed: PluginHost.PluginSession)
    requires closed.Unwound() && closed.plugin.Some?
    ensures var p := closed.plugin.value;
            var s := PluginHost.ResumedAll(p, PluginHost.SetUpOf(p), closed.mid);
            closed.ran == PluginHost.Unwinding(s.env, s.test, s.inTest)
  {
    hide PluginHost.ResumedAll, PluginHost.SetUpOf, PluginHost.Unwinding, PluginHost.Trail;
  }

  /** Every poll saw what the operator had written by then: the flags the run started with, changed by
      a beginning of the operator's own writes. */
  lemma PollsSawTheOperator(r: ExperimentRunner, k: nat) returns (n: nat)
    requires r.Over() && k < |r.log.trace| && r.log.trace[k].Polled?
    ensures n <= |r.Consumed(r.calls)| && r.log.trace[k].flags
        == Store.Effect(r.log.setup.flags, r.Consumed(r.calls)[..n])
  {
    hide Safe, Fold, WritesIn;
    var s, trace := r.log.setup, r.log.trace;
    TraceOf(r);
    PollSeesTheOperator(s, trace, k);
    WroteIsWritesIn(s, trace, |trace|);
    WritesInPrefix(trace, k);
    n := |WritesIn(trace[..k])|;
    assert WritesIn(trace)[..n] == WritesIn(trace[..k]);
  }

  /** The flags on the row have been cleared, and are clear unless the operator wrote later. */
  lemma FlagsWereCleared(r: ExperimentRunner)
    requires r.Over()
    ensures exists i | 0 <= i < |r.log.trace| ::
      && r.log.trace[i] == Cleared
      && ((forall j | i < j < |r.log.trace| :: !r.log.trace[j].Wrote?) ==> r.store.rows[r.Id()].flags == Store.NO_FLAGS)
  {
    hide Safe, Fold;
    TraceOf(r);
    FlagsAreCleared(r.log.setup, r.log.trace);
  }

  /** The states the store has seen, pauses aside, form a path of the state machine that ends with the
      record's. */
  lemma StatesFormedAPath(r: ExperimentRunner)
    requires r.Over()
    ensures IsPath(Persisted(r.log.trace)) && LastOf(Persisted(r.log.trace)) == Some(r.record.state)
  {
    hide Safe, Fold, IsPath, Persisted;
    TraceOf(r);
    PersistedStatesFormAPath(r.log.setup, r.log.trace, |r.log.trace|);
  }

  /** How the run ended, in the terms of its trace. */
  lemma WasRecordedIff(r: ExperimentRunner)
    requires r.Over()
    ensures r.record.state == RECORDED <==>
      FlawlessAsideFromDrive(r.log.setup) && Unstopped(r.log.setup, r.log.trace) && DriveSucceeded(r.log.trace)
  {
    hide Safe, Fold, FlawlessAsideFromDrive, Unstopped, DriveSucceeded;
    TraceOf(r);
    RecordedIff(r.log.setup, r.log.trace);
  }

  /** What is on the record of a recorded run: both healthy baselines, the successful timeline, both
      verifications; a diagnosis exactly if a verification reports a regression; a fix exactly if the
      diagnosis on record has an active hypothesis; and the plugin's own verdict. */
  lemma RecordIsComplete(r: ExperimentRunner)
    requires r.Over() && r.record.state == RECORDED
    ensures var q := r.record.reports;
            && q.testerBaseline.Some? && q.testerBaseline.value.steady
            && q.securityBaseline.Some? && !q.securityBaseline.value.criticalOrHigh
            && q.timeline.Some? && q.timeline.value.success && q.testerVerify.Some? && q.securityVerify.Some?
            && (q.diagnosis.Some? <==>
                  || !q.testerVerify.value.steady
                  || q.securityVerify.value.criticalOrHigh || q.securityVerify.value.drifted)
            && (q.fix.Some? <==>
                  && q.diagnosis.Some? && r.agents.diagnose.answer.Answered? && r.world.rules.Answered?
                  && r.Survives(r.agents.diagnose.answer.value))
            && q.verdict == PluginHost.VerdictOf(r.plugin)
  {
    hide Safe, Fold, r.Over, r.Says, r.Survives, PlanAllowed, RunHeld, Terminal;
    TraceOf(r);
    RecordedMeans(r.log.setup, r.log.trace);
    HeldReports(r.log.setup, r.log.view);
    ReportsOnRecord(r);
    r.SaysBaselines();
    r.SaysRegressed();
    SaysRest(r);
  }

  lemma HeldReports(s: Setup, v: View)
    requires RunHeld(s, v)
    ensures {TesterBaseline, SecurityBaseline, Execute, TesterVerify, SecurityVerify} <= v.filed
    ensures s.says.steady && s.says.secure
    ensures Diagnose in v.filed <==> s.says.regressed
    ensures ProposeFix in v.filed <==> s.says.regressed && s.says.active
    ensures v.course.judged
    ensures v.course.hooks == VERIFIED + if Regressed(s) then [PluginHost.CollectDiagnostics] else []
  {
  }

  lemma SaysRest(r: ExperimentRunner)
    ensures r.Says().success <==> !r.Raises(Execute) && r.agents.execute.answer.value.success
    ensures r.Says().active <==>
      !r.Raises(Diagnose) && r.world.rules.Answered? && r.Survives(r.agents.diagnose.answer.value)
    ensures r.Says().rulesRaise <==> r.world.rules.Raised?
  {
  }

  lemma ReportsOnRecord(r: ExperimentRunner)
    requires r.Over()
    ensures var q, filed := r.record.reports, r.log.view.filed;
            && Matches(TesterBaseline in filed, q.testerBaseline, r.agents.testerBaseline.answer)
            && Matches(SecurityBaseline in filed, q.securityBaseline, r.agents.securityBaseline.answer)
            && Matches(Execute in filed, q.timeline, r.agents.execute.answer)
            && Matches(TesterVerify in filed, q.testerVerify, r.agents.testerVerify.answer)
            && Matches(SecurityVerify in filed, q.securityVerify, r.agents.securityVerify.answer)
            && Matches(ProposeFix in filed, q.fix, r.agents.proposeFix.answer)
            && (Diagnose in filed <==> q.diagnosis.Some?) && (q.diagnosis.Some? ==> r.agents.diagnose.answer.Answered?)
            && (r.log.view.course.judged ==> q.verdict == PluginHost.VerdictOf(r.plugin))
  {
    hide Safe, Fold, Matches;
  }

  /** An aborted run has a reason, and the reason is warranted. */
  lemma AbortWasWarranted(r: ExperimentRunner)
    requires r.Over() && r.record.state == ABORTED
    ensures r.record.abortReason.Some? && Warranted(r.log.setup, r.log.trace, |r.log.trace|, r.record.abortReason.value)
  {
    hide Safe, Fold, Warranted, Justified;
    TraceOf(r);
    JustifiedIsWarranted(r.log.setup, r.log.trace, |r.log.trace|, r.record.abortReason.value);
  }

  /** With a harness, the run adds to what the harness carried before exactly what the calls it made
      cost, by each agent's own bookings. */
  lemma SpendWasTheBill(r: ExperimentRunner)
    requires r.Over() && r.harness != null
    ensures r.log.setup.base.Some?
    ensures r.record.spend == r.log.setup.base.value + OthersCost(r.log.setup, r.log.trace)
        + InjectionCost(r.log.setup, r.log.view)
    ensures forall agent :: r.log.setup.says.cost(agent) == Harness.CostOf(r.Work(agent))
  {
    hide Safe, Fold, OthersCost, InjectionCost;
    TraceOf(r);
    SpendIsTheBill(r.log.setup, r.log.trace);
    forall agent ensures r.log.setup.says.cost(agent) == Harness.CostOf(r.Work(agent)) {
      r.SaysCosts(agent);
    }
  }

  /** With a plugin that cannot break, and cannot trip next to an agent that cannot clean up, the run has
      left the cluster as it was. */
  lemma NothingWasLeft(r: ExperimentRunner, before: Chaos.Table, b: Bench)
    requires r.Over() && !PluginHost.DriveBreaks(r.plugin)
        && (r.agents.cleanup.None? ==> !PluginHost.DriveTrips(r.plugin))
    requires Fits(before, b) && Conforms(b.shots)
    ensures ClusterAfter(before, r.log.trace, b) == before
  {
    hide Safe, Fold, ClusterAfter, Fits, Conforms;
    TraceOf(r);
    SoundPluginLeavesNothing(r.log.setup, r.log.trace, before, b);
  }

  /** No agent was called outside the plugin's session. */
  lemma AgentsStayedInSession(r: ExperimentRunner, k: nat)
    requires r.Over() && k < |r.log.trace| && r.log.trace[k].Started?
    ensures Seen(r.log.trace, k, SessionOpened) && !Seen(r.log.trace, k, SessionClosed)
  {
    hide Safe, Fold, Seen;
    TraceOf(r);
    AgentsRunInSession(r.log.setup, r.log.trace, k);
  }

  /** PAUSED was saved only right after a poll that asked for it. */
  lemma PausesWereAskedFor(r: ExperimentRunner, k: nat)
    requires r.Over() && k < |r.log.trace| && r.log.trace[k].Saved? && r.log.trace[k].state == PAUSED
    ensures exists j, f | 0 <= j < k :: FreshPoll(r.log.trace, j, k, f) && f.pause && !f.abort
  {
    hide Safe, Fold;
    TraceOf(r);
    PauseIsSavedAtPollPoints(r.log.setup, r.log.trace, k);
  }

  /** A budget check that failed: no agent was called any more, and the run was aborted. */
  lemma OverspendWasTheEnd(r: ExperimentRunner, k: nat, n: nat)
    requires r.Over() && k < n < |r.log.trace| && Exceeds(r.log.setup, r.log.trace[k])
    ensures !r.log.trace[n].Started? && r.record.state == ABORTED
  {
    hide Safe, Fold;
    TraceOf(r);
    OverspendEndsTheRun(r.log.setup, r.log.trace, k, n);
    StoppedStays(r.log.setup, r.log.trace, k, |r.log.trace|);
  }

  /** REGRESSED was persisted by a recorded run exactly if a verification or the plugin objected. */
  lemma RegressionWasPersistedIff(r: ExperimentRunner)
    requires r.Over() && r.record.state == RECORDED
    ensures var q := r.record.reports;
            && q.testerVerify.Some? && q.securityVerify.Some?
            && ((exists i | 0 <= i < |r.log.trace| :: r.log.trace[i].Saved? && r.log.trace[i].state == REGRESSED) <==>
                  || !q.testerVerify.value.steady
                  || q.securityVerify.value.criticalOrHigh || q.securityVerify.value.drifted
                  || PluginHost.VerdictOf(r.plugin) == Some(false))
  {
    RecordIsComplete(r);
    hide Safe, Fold, r.Over, r.Says, Terminal;
    TraceOf(r);
    RegressedIsPersistedIff(r.log.setup, r.log.trace);
    RecordedMeans(r.log.setup, r.log.trace);
    ReportsOnRecord(r);
    r.SaysRegressed();
  }

  /** A poll that asked for a pause held the run until the next poll, and the pause was on disk by then. */
  lemma PauseHeldTheRun(r: ExperimentRunner, k: nat, n: nat)
    requires r.Over() && k < n < |r.log.trace| && AsksToPause(r.log.trace[k])
    requires forall i | k < i < n :: !r.log.trace[i].Polled?
    ensures !r.log.trace[n].Started? && !r.log.trace[n].Hooked? && !r.log.trace[n].BudgetChecked?
    ensures r.log.trace[n].Entered? ==> r.log.trace[n].state == PAUSED
    ensures r.log.trace[n].Polled? ==> PauseShown(r.log.trace, n)
  {
    hide Safe, Fold, PauseShown;
    TraceOf(r);
    PauseHoldsTheRun(r.log.setup, r.log.trace, k, n);
    if r.log.trace[n].Polled? {
      PauseIsShownBeforeThePoll(r.log.setup, r.log.trace, k, n);
    }
  }

  /** One pause was saved once: by the next time, a poll had found it lifted. */
  lemma PauseWasSavedOnce(r: ExperimentRunner, j: nat, k: nat)
    requires r.Over() && j < k < |r.log.trace|
    requires r.log.trace[j].Saved? && r.log.trace[j].state == PAUSED
    requires r.log.trace[k].Saved? && r.log.trace[k].state == PAUSED
    ensures exists i | j < i < k :: r.log.trace[i].Polled? && !r.log.trace[i].flags.pause
  {
    hide Safe, Fold;
    TraceOf(r);
    PauseIsSavedOnce(r.log.setup, r.log.trace, j, k);
  }

  /** However the run ended: what the agents answered is on record. */
  lemma AnswersWereFiled(r: ExperimentRunner, k: nat)
    requires r.Over() && k < |r.log.trace| && r.log.trace[k].Started?
    ensures var q := r.record.reports;
            match r.log.trace[k].agent
            case TesterBaseline =>
              r.agents.testerBaseline.answer == (if q.testerBaseline.Some? then Answered(q.testerBaseline.value)
                else Raised)
            case SecurityBaseline =>
              r.agents.securityBaseline.answer
                == (if q.securityBaseline.Some? then Answered(q.securityBaseline.value) else Raised)
            case TesterVerify =>
              r.agents.testerVerify.answer == (if q.testerVerify.Some? then Answered(q.testerVerify.value) else Raised)
            case SecurityVerify =>
              r.agents.securityVerify.answer
                == (if q.securityVerify.Some? then Answered(q.securityVerify.value) else Raised)
            case Diagnose => q.diagnosis.Some? <==> r.agents.diagnose.answer.Answered?
            case ProposeFix => r.agents.proposeFix.answer == (if q.fix.Some? then Answered(q.fix.value) else Raised)
            case _ => true
  {
    hide Safe, Fold, r.Over, r.Says, Terminal;
    TraceOf(r);
    var agent := r.log.trace[k].agent;
    r.SaysRaises(agent);
    if agent in ANSWERING && agent !in r.log.setup.says.raises {
      AnswersAreOnRecord(r.log.setup, r.log.trace, k);
    }
    ReportsOnRecord(r);
  }

  /** With a harness, the record shows each call of the run, in order, behind the invocations that the
      harness carried before. */
  lemma CallsWereLogged(r: ExperimentRunner)
    requires r.Over() && r.harness != null
    ensures r.record.invocations == r.carried + Harness.LogAll(r.ActionsOf(MadeIn(r.log.trace)))
  {
    hide Safe, Fold, MadeIn, r.ActionsOf, r.Says, r.Genuine, Harness.LogAll, Terminal, Justified;
    TraceOf(r);
    MadeIsMadeIn(r.log.setup, r.log.trace, |r.log.trace|);
  }

  /** Each call is made under its agent's name and that of its operation. */
  lemma CallsHaveNames(r: ExperimentRunner)
    ensures r.ActionOf(Made(TesterBaseline, false)) == Harness.Call("tester", "baseline",
      r.agents.testerBaseline.work, r.agents.testerBaseline.answer.Raised?)
    ensures r.ActionOf(Made(SecurityBaseline, false)) == Harness.Call("security", "baseline",
      r.agents.securityBaseline.work, r.agents.securityBaseline.answer.Raised?)
    ensures r.ActionOf(Made(Execute, false)) == Harness.Call("chaos", "execute",
      r.agents.execute.work, r.agents.execute.answer.Raised?)
    ensures r.ActionOf(Made(Execute, true)) == Harness.Call("chaos", "execute", r.agents.cut, true)
    ensures r.ActionOf(Made(TesterVerify, false)) == Harness.Call("tester", "verify",
      r.agents.testerVerify.work, r.agents.testerVerify.answer.Raised?)
    ensures r.ActionOf(Made(SecurityVerify, false)) == Harness.Call("security", "verify",
      r.agents.securityVerify.work, r.agents.securityVerify.answer.Raised?)
    ensures r.ActionOf(Made(Diagnose, false)) == Harness.Call("diagnostician", "diagnose",
      r.agents.diagnose.work, r.agents.diagnose.answer.Raised?)
    ensures r.ActionOf(Made(ProposeFix, false)) == Harness.Call("fixer", "propose_fix",
      r.agents.proposeFix.work, r.agents.proposeFix.answer.Raised?)
    ensures r.agents.annotations.Some? ==>
      r.ActionOf(Made(ReadAnnotations, false)) == Harness.Call("chaos", "get_namespace_annotations",
        r.agents.annotations.value.work, r.agents.annotations.value.answer.Raised?)
    ensures r.agents.cleanup.Some? ==>
      r.ActionOf(Made(Cleanup, false)) == Harness.Call("chaos", "cleanup",
        r.agents.cleanup.value.work, r.agents.cleanup.value.answer.Raised?)
  {
  }

  /** The hooks that the run's session ran between set-up and teardown, the drive under RunTest: some
      beginning of capture, drive, verification and diagnostics, or diagnostics right after the drive.
      A recorded run went through the first three, and asked for diagnostics exactly if an agent or the
      plugin objected. */
  lemma HooksRanInOrder(r: ExperimentRunner, closed: PluginHost.PluginSession)
    requires r.Over() && PluginHost.Stages(closed.mid) == r.log.view.course.hooks
    ensures var hooks := PluginHost.Stages(closed.mid);
            || hooks <= [PluginHost.CaptureBaseline, PluginHost.RunTest, PluginHost.VerifyTest,
                         PluginHost.CollectDiagnostics]
            || hooks == [PluginHost.CaptureBaseline, PluginHost.RunTest, PluginHost.CollectDiagnostics]
    ensures r.record.state == RECORDED ==>
      var q := r.record.reports;
      && q.testerVerify.Some? && q.securityVerify.Some?
      && PluginHost.Stages(closed.mid) == [PluginHost.CaptureBaseline, PluginHost.RunTest, PluginHost.VerifyTest]
         + if !q.testerVerify.value.steady || q.securityVerify.value.criticalOrHigh || q.securityVerify.value.drifted
              || PluginHost.VerdictOf(r.plugin) == Some(false) then [PluginHost.CollectDiagnostics] else []
  {
    hide Safe, Fold, r.Over, r.Says, Terminal, HooksIn;
    TraceOf(r);
    HooksRunInOrder(r.log.setup, r.log.trace, |r.log.trace|);
    if r.record.state == RECORDED {
      hide PlanAllowed, RunHeld;
      RecordedMeans(r.log.setup, r.log.trace);
      HeldReports(r.log.setup, r.log.view);
      ReportsOnRecord(r);
      r.SaysRegressed();
    }
  }

  /** Whatever set-up, a hook or the drive had registered by the time of the teardown was run, and left a
      line of the audit trail that says whether it failed. */
  lemma RegisteredCleanupRan(closed: PluginHost.PluginSession, c: PluginHost.Compensation)
    requires closed.Unwound() && closed.plugin.Some?
    requires var p := closed.plugin.value;
             || c in PluginHost.SetUpOf(p).env + PluginHost.SetUpOf(p).test
             || exists k | 0 <= k < |closed.mid| :: c in PluginHost.DeferredBy(p, closed.mid[k])
    ensures c in closed.ran
    ensures exists line | line in closed.records ::
      line.name == c.name && line.status == if c.raises then PluginHost.Failed else PluginHost.Ok
  {
    var p := closed.plugin.value;
    var s := PluginHost.ResumedAll(p, PluginHost.SetUpOf(p), closed.mid);
    UnwoundRan(closed);
    hide PluginHost.ResumedAll, PluginHost.SetUpOf, PluginHost.Unwinding, PluginHost.Trail, PluginHost.Everything,
      PluginHost.DeferredBy;
    PluginHost.RegisteredIsRun(p, PluginHost.SetUpOf(p), closed.mid, c);
    PluginHost.TrailTellsWhatRan(s.env, s.test, s.inTest);
    var trail := PluginHost.Trail(s.env, s.test, s.inTest);
    var k :| 0 <= k < |closed.ran| && closed.ran[k] == c;
    assert trail[k] in closed.records;
  }
}

/** How a run ends, and why: what a recorded run has been through, what an abort must be explained by,
    and exactly when a run ends one way or the other. */
module RunOutcome {
  import opened Contracts
  import opened Prelude
  import opened RunTrace
  import opened RunProperties
  import PluginHost
  import Safety

  // ----- what a run has behind it ------------------------------------------------------------------

  predicate BaselinesHeld(s: Setup, v: View) {
    && !PluginHost.SetUpRaises(s.plugin) && !PluginHost.HookRaises(s.plugin, PluginHost.CaptureBaseline)
    && Healthy(s) && BASELINES <= v.filed
  }

  predicate InjectionHeld(s: Setup, v: View) {
    && BaselinesHeld(s, v) && Execute in v.filed
    && v.attack.injection == Some(Completed(true)) && v.attack.drive.Returned?
    && !PluginHost.WorkloadRaises(PluginHost.DriveOf(s.plugin))
  }

  predicate Verified(s: Setup, v: View) {
    && InjectionHeld(s, v) && VERIFICATIONS <= v.filed && v.course.judged
    && !PluginHost.HookRaises(s.plugin, PluginHost.VerifyTest)
  }

  predicate RegressionHeld(s: Setup, v: View) {
    && Verified(s, v) && Regressed(s) && v.course.hooks == DIAGNOSED_BY_PLUGIN
    && !PluginHost.HookRaises(s.plugin, PluginHost.CollectDiagnostics)
  }

  /** The diagnostician was heard exactly if an agent saw a regression, and the fixer exactly if some
      hypothesis was then left. */
  predicate RunHeld(s: Setup, v: View) {
    && Verified(s, v) && (if Regressed(s) then RegressionHeld(s, v) else v.course.hooks == VERIFIED)
    && (Diagnose in v.filed <==> s.says.regressed) && (s.says.regressed ==> !s.says.rulesRaise)
    && (ProposeFix in v.filed <==> s.says.regressed && s.says.active)
  }

  /** What a run in this state has been through. */
  predicate Through(s: Setup, v: View) {
    match v.at.phase
    case BASELINE => !PluginHost.SetUpRaises(s.plugin)
    case BASELINE_OK => BaselinesHeld(s, v)
    case INJECT => BaselinesHeld(s, v)
    case INJECTED => InjectionHeld(s, v)
    case VERIFY => InjectionHeld(s, v)
    case STEADY => Verified(s, v) && !Regressed(s) && v.course.hooks == VERIFIED
    case REGRESSED => RegressionHeld(s, v)
    case DIAGNOSE => RegressionHeld(s, v) && s.says.regressed
    case DIAGNOSED => RegressionHeld(s, v) && Diagnose in v.filed
    case PROPOSE_FIX => RegressionHeld(s, v) && Diagnose in v.filed && !s.says.rulesRaise && s.says.active
    case FIX_DECLINED => RegressionHeld(s, v) && Diagnose in v.filed && !s.says.rulesRaise && !s.says.active
    case FIX_PROPOSED => RegressionHeld(s, v) && {Diagnose, ProposeFix} <= v.filed && !s.says.rulesRaise
    case RECORDED => RunHeld(s, v)
    case _ => true
  }

  /** What has been noted is what plan, plugin and agents account for, whatever the state. */
  ghost predicate Sourced(s: Setup, v: View) {
    && (v.last.Some? || v.filed != {} ==> v.gates.opened_)
    && (v.gates.opened_ ==> PlanAllowed(s.plan))
    && (v.gates.annotated ==> Safety.Annotated(s.says.annotations))
    && v.filed !! s.says.raises
    && (v.last == Some(Execute) || v.attack.injection.Some? ==>
          s.plan.safety.requireAnnotation ==> Safety.Annotated(s.says.annotations))
    && (v.attack.injection.Some? ==> CanEnd(s, v.attack.injection.value, v.attack.drive))
    && (v.attack.injection.None? ==> v.attack.drive.Returned?)
    && (v.attack.owesCleanup || v.last == Some(Cleanup) ==> v.attack.drive.Tripped?)
    && (v.last == Some(Diagnose) || Diagnose in v.filed ==> s.says.regressed)
    && (v.tagged.Some? ==> v.tagged.value == s.says.active && !s.says.rulesRaise)
    && (v.last == Some(ProposeFix) || ProposeFix in v.filed ==> s.says.regressed && s.says.active)
  }

  lemma SourcedStep(s: Setup, v: View, e: Event)
    requires Allowed(s, v, e) && Through(s, v) && Sourced(s, v)
    ensures Sourced(s, Next(s, v, e))
  {
    hide CanEnter, CanSave, CanPoll, CanHook;
  }

  lemma ThroughEntered(s: Setup, v: View, state: ExperimentState)
    requires CanEnter(s, v, state) && Through(s, v) && Sourced(s, v)
    ensures Through(s, WithState(v, state))
  {
    hide PlanAllowed, Clear, Ready, Overspent;
    if state == RECORDED {
      RecordedFrom(s, v);
    }
  }

  lemma RecordedFrom(s: Setup, v: View)
    requires CanEnter(s, v, RECORDED) && Through(s, v) && Sourced(s, v)
    ensures RunHeld(s, v)
  {
    hide CanEnd, PlanAllowed, Clear, Ready, Overspent;
  }

  /** Reports are only added, and an injection ends only once. */
  predicate Grows(v: View, w: View) {
    && v.filed <= w.filed && w.at.phase == v.at.phase && (v.course.judged ==> w.course.judged)
    && (v.at.phase != BASELINE && v.at.phase != INJECT && v.at.phase != INJECT_FAILED && v.at.phase != VERIFY ==>
          w.course.hooks == v.course.hooks)
    && (v.at.phase != INJECT ==> w.attack.injection == v.attack.injection && w.attack.drive == v.attack.drive)
    && (Diagnose in w.filed ==> Diagnose in v.filed || v.last == Some(Diagnose))
    && (ProposeFix in w.filed ==> ProposeFix in v.filed || v.last == Some(ProposeFix))
  }

  lemma GrowsUnlessEntered(s: Setup, v: View, e: Event)
    requires Allowed(s, v, e) && !e.Entered?
    ensures Grows(v, Next(s, v, e))
  {
  }

  lemma ThroughGrows(s: Setup, v: View, w: View)
    requires Grows(v, w) && Through(s, v) && Sourced(s, v)
    ensures Through(s, w)
  {
    hide CanEnd, PlanAllowed;
  }

  lemma ThroughStep(s: Setup, v: View, e: Event)
    requires Allowed(s, v, e) && Through(s, v) && Sourced(s, v)
    ensures Through(s, Next(s, v, e))
  {
    if e.Entered? {
      hide Through, Sourced, CanEnter;
      ThroughEntered(s, v, e.state);
    } else {
      hide Allowed, Next, Through, Sourced, Grows;
      GrowsUnlessEntered(s, v, e);
      ThroughGrows(s, v, Next(s, v, e));
    }
  }

  lemma {:induction false} ThroughAlways(s: Setup, trace: seq<Event>, k: nat)
    requires Safe(s, trace) && k <= |trace|
    ensures var v := Fold(s, trace[..k]); Through(s, v) && Sourced(s, v)
  {
    hide Safe, Next, Allowed, Fold;
    if k == 0 {
      NothingYet(s, trace);
    } else {
      hide Through, Sourced;
      ThroughAlways(s, trace, k - 1);
      FoldStep(s, trace, k - 1);
      AllowedAt(s, trace, k - 1);
      SourcedStep(s, Fold(s, trace[..k - 1]), trace[k - 1]);
      ThroughStep(s, Fold(s, trace[..k - 1]), trace[k - 1]);
    }
  }

  /** A recorded run has been through all of it: an allowed and annotated target, healthy baselines, an
      injection that succeeded, and both verifications on record; a diagnosis is on record exactly if
      an agent saw a regression, and a fix exactly if the suppression rules left a hypothesis. */
  lemma RecordedMeans(s: Setup, trace: seq<Event>)
    requires Safe(s, trace) && Fold(s, trace).at.phase == RECORDED
    ensures PlanAllowed(s.plan) && (s.plan.safety.requireAnnotation ==> Safety.Annotated(s.says.annotations))
    ensures var v := Fold(s, trace); RunHeld(s, v) && s.says.success && v.filed !! s.says.raises
    ensures !PluginHost.DriveOf(s.plugin).guard.FactoryRaises?
  {
    assert trace[..|trace|] == trace;
    ThroughAlways(s, trace, |trace|);
  }

  // ----- a regression is persisted -------------------------------------------------------------------

  ghost predicate SavedRegression(trace: seq<Event>, k: nat)
    requires k <= |trace|
  {
    exists i | 0 <= i < k :: trace[i].Saved? && trace[i].state == REGRESSED
  }

  /** Beyond REGRESSED. */
  predicate Beyond(s: Setup, v: View) {
    match v.at.phase
    case DIAGNOSE => true
    case DIAGNOSED => true
    case PROPOSE_FIX => true
    case FIX_DECLINED => true
    case FIX_PROPOSED => true
    case RECORDED => Regressed(s)
    case _ => false
  }

  lemma RegressionStep(s: Setup, v: View, e: Event)
    requires Allowed(s, v, e) && Through(s, v)
    ensures Beyond(s, Next(s, v, e)) ==> Beyond(s, v) || v.at.saved == Some(REGRESSED)
    ensures e.Saved? && e.state == REGRESSED ==> Regressed(s)
    ensures Next(s, v, e).at.saved == Some(REGRESSED) ==>
        v.at.saved == Some(REGRESSED) || (e.Saved? && e.state == REGRESSED)
  {
  }

  lemma SavedRegressionStep(trace: seq<Event>, k: nat)
    requires k < |trace|
    ensures SavedRegression(trace, k + 1) <==>
      SavedRegression(trace, k) || (trace[k].Saved? && trace[k].state == REGRESSED)
  {
  }

  lemma {:induction false} RegressionIsSaved(s: Setup, trace: seq<Event>, k: nat)
    requires Safe(s, trace) && k <= |trace|
    ensures var v := Fold(s, trace[..k]); Beyond(s, v) || v.at.saved == Some(REGRESSED) ==> SavedRegression(trace, k)
    ensures SavedRegression(trace, k) ==> Regressed(s)
  {
    hide Safe, Next, Allowed, Fold, Through, Sourced, Regressed;
    if k == 0 {
      NothingYet(s, trace);
    } else {
      hide Beyond, SavedRegression;
      RegressionIsSaved(s, trace, k - 1);
      ThroughAlways(s, trace, k - 1);
      FoldStep(s, trace, k - 1);
      AllowedAt(s, trace, k - 1);
      RegressionStep(s, Fold(s, trace[..k - 1]), trace[k - 1]);
      SavedRegressionStep(trace, k - 1);
    }
  }

  /** A recorded run has persisted REGRESSED if and only if an agent or the plugin saw a regression. */
  lemma RegressedIsPersistedIff(s: Setup, trace: seq<Event>)
    requires Safe(s, trace) && Fold(s, trace).at.phase == RECORDED
    ensures SavedRegression(trace, |trace|) <==> Regressed(s)
  {
    assert trace[..|trace|] == trace;
    RegressionIsSaved(s, trace, |trace|);
  }

  // ----- the budget ends a run -------------------------------------------------------------------------

  lemma OverspentStep(s: Setup, v: View, e: Event)
    requires Allowed(s, v, e) && Overspent(s, v)
    ensures Overspent(s, Next(s, v, e)) && !e.Started? && !e.BudgetChecked?
    ensures e.Entered? ==> e.state == ABORTED
  {
  }

  predicate Exceeds(s: Setup, e: Event) {
    e.BudgetChecked? && !Safety.WithinBudget(s.plan.budget, e.spent, e.elapsed)
  }

  lemma {:induction false} OverspentStays(s: Setup, trace: seq<Event>, k: nat, n: nat)
    requires Safe(s, trace) && k < n <= |trace| && Exceeds(s, trace[k])
    ensures Overspent(s, Fold(s, trace[..n]))
  {
    hide Safe, Fold, Next, Allowed, Overspent, Exceeds;
    FoldStep(s, trace, n - 1);
    if k < n - 1 {
      OverspentStays(s, trace, k, n - 1);
      AllowedAt(s, trace, n - 1);
      OverspentStep(s, Fold(s, trace[..n - 1]), trace[n - 1]);
    } else {
      OverspentByCheck(s, Fold(s, trace[..k]), trace[k]);
    }
  }

  lemma OverspentByCheck(s: Setup, v: View, e: Event)
    requires Exceeds(s, e)
    ensures Overspent(s, Next(s, v, e))
  {
  }

  /** A check that finds the budget exceeded is the last: no agent is called any more, and the only
      state entered is ABORTED. */
  lemma OverspendEndsTheRun(s: Setup, trace: seq<Event>, k: nat, n: nat)
    requires Safe(s, trace) && k < n < |trace| && Exceeds(s, trace[k])
    ensures !trace[n].Started? && !trace[n].Hooked? && !trace[n].BudgetChecked?
    ensures trace[n].Entered? ==> trace[n].state == ABORTED
  {
    OverspentStays(s, trace, k, n);
    assert Allowed(s, Fold(s, trace[..n]), trace[n]);
  }

  // ----- an abort is explained ---------------------------------------------------------------------------

  predicate Requests(e: Event, reason: AbortReason) {
    e.Polled? && e.flags.abort && e.flags.reason.GetOr(UserKill) == reason
  }

  ghost predicate Requested(trace: seq<Event>, k: nat, reason: AbortReason)
    requires k <= |trace|
  {
    exists j | 0 <= j < k :: Requests(trace[j], reason)
  }

  lemma {:induction false} KilledMeansRequested(s: Setup, trace: seq<Event>, k: nat)
    requires Safe(s, trace) && k <= |trace|
    ensures var killed := Fold(s, trace[..k]).signals.killed; killed.Some? ==> Requested(trace, k, killed.value)
  {
    hide Safe, Fold, Next, Allowed;
    if k == 0 {
      NothingYet(s, trace);
    } else {
      KilledMeansRequested(s, trace, k - 1);
      FoldStep(s, trace, k - 1);
      AllowedAt(s, trace, k - 1);
      KilledSource(s, Fold(s, trace[..k - 1]), trace[k - 1]);
    }
  }

  lemma KilledSource(s: Setup, v: View, e: Event)
    requires Allowed(s, v, e)
    ensures var killed := Next(s, v, e).signals.killed;
            killed.Some? ==> v.signals.killed == killed || Requests(e, killed.value)
  {
  }

  ghost predicate SomeExceeds(s: Setup, trace: seq<Event>, k: nat)
    requires k <= |trace|
  {
    exists j | 0 <= j < k :: Exceeds(s, trace[j])
  }

  const MEASURING := BASELINES + VERIFICATIONS + {Execute}

  /** Something that is reported as the failure of an agent. */
  predicate Failure(s: Setup) {
    || s.says.raises * MEASURING != {} || !s.says.success
    || PluginHost.SetUpRaises(s.plugin) || PluginHost.HookRaises(s.plugin, PluginHost.CaptureBaseline)
    || PluginHost.DriveOf(s.plugin).guard.FactoryRaises? || PluginHost.DriveBreaks(s.plugin)
    || PluginHost.HookRaises(s.plugin, PluginHost.VerifyTest)
    || ((Regressed(s) || PluginHost.DriveTrips(s.plugin))
       && PluginHost.HookRaises(s.plugin, PluginHost.CollectDiagnostics))
    || (s.says.regressed && (Diagnose in s.says.raises || s.says.rulesRaise
       || (s.says.active && ProposeFix in s.says.raises)))
  }

  lemma BrokenMeansFailure(s: Setup, v: View)
    requires Broken(s, v) && Sourced(s, v)
    ensures Failure(s)
  {
    match v.last
    case Some(TesterBaseline) => assert TesterBaseline in s.says.raises * MEASURING;
    case Some(SecurityBaseline) =>
      if SecurityBaseline in s.says.raises {
        assert SecurityBaseline in s.says.raises * MEASURING;
      }
    case Some(Execute) =>
      if Execute in s.says.raises {
        assert Execute in s.says.raises * MEASURING;
      }
    case Some(Cleanup) =>
      if Execute in s.says.raises {
        assert Execute in s.says.raises * MEASURING;
      }
    case Some(TesterVerify) => assert TesterVerify in s.says.raises * MEASURING;
    case Some(SecurityVerify) =>
      if SecurityVerify in s.says.raises {
        assert SecurityVerify in s.says.raises * MEASURING;
      }
    case _ =>
  }

  /** Why a run may be aborted: the operator asked for it, or for the reason that goes with what plan,
      plugin, agents and budget have come to. */
  ghost predicate Warranted(s: Setup, trace: seq<Event>, k: nat, reason: AbortReason)
    requires k <= |trace|
  {
    || Requested(trace, k, reason)
    || match reason
       case ClusterDenied =>
         !Safety.ClusterAllowed(s.plan.safety) || (
           s.plan.safety.requireAnnotation && !Safety.Annotated(s.says.annotations))
       case BlastRadiusViolation => !Safety.RadiusAllowed(s.plan.faults, s.plan.safety)
       case BaselineUnhealthy => !Healthy(s)
       case BudgetExceeded => SomeExceeds(s, trace, k)
       case SloBreach => PluginHost.DriveTrips(s.plugin) || (Execute in s.says.raises && s.says.trips)
       case AgentFailure => Failure(s)
       case _ => false
  }

  lemma JustifiedIsWarranted(s: Setup, trace: seq<Event>, k: nat, reason: AbortReason)
    requires Safe(s, trace) && k <= |trace| && Justified(s, Fold(s, trace[..k]), reason)
    ensures Warranted(s, trace, k, reason)
  {
    hide Safe, Fold, Allowed;
    var v := Fold(s, trace[..k]);
    ThroughAlways(s, trace, k);
    KilledMeansRequested(s, trace, k);
    if v.signals.killed.None? {
      if Overspent(s, v) {
        ViewIsWitnessed(s, trace, k);
        var j :| 0 <= j < k && FreshCheck(trace, j, k, v.money.checked.value);
        assert Exceeds(s, trace[j]);
      }
      if Broken(s, v) {
        BrokenMeansFailure(s, v);
      }
    }
  }

  /** Every abort that is persisted is warranted by its reason. */
  lemma AbortIsWarranted(s: Setup, trace: seq<Event>, k: nat)
    requires Safe(s, trace) && k < |trace| && trace[k].Saved? && trace[k].state == ABORTED
    ensures trace[k].reason.Some? && Warranted(s, trace, k, trace[k].reason.value)
  {
    hide Safe, Fold, Justified, Warranted;
    AllowedAt(s, trace, k);
    JustifiedIsWarranted(s, trace, k, trace[k].reason.value);
  }

  // ----- which way a run ends -------------------------------------------------------------------------------

  /** Plan, plugin and agents give no reason to stop, as far as they are asked. */
  ghost predicate Flawless(s: Setup) {
    && PlanAllowed(s.plan) && (s.plan.safety.requireAnnotation ==> Safety.Annotated(s.says.annotations))
    && Healthy(s) && !Failure(s) && !PluginHost.DriveTrips(s.plugin)
  }

  /** No poll saw an abort, and no check an exceeded budget. */
  ghost predicate Unstopped(s: Setup, trace: seq<Event>) {
    forall i | 0 <= i < |trace| :: !Exceeds(s, trace[i]) && (trace[i].Polled? ==> !trace[i].flags.abort)
  }

  lemma AbortedStep(s: Setup, v: View, e: Event)
    ensures Next(s, v, e).at.saved == Some(ABORTED) ==> v.at.saved == Some(ABORTED) || (e.Saved? && e.state == ABORTED)
  {
  }

  lemma {:induction false} AbortedSomewhere(s: Setup, trace: seq<Event>, k: nat)
    requires Safe(s, trace) && k <= |trace| && Fold(s, trace[..k]).at.saved == Some(ABORTED)
    ensures exists i | 0 <= i < k :: trace[i].Saved? && trace[i].state == ABORTED
  {
    assert trace[..0] == [] && Fold(s, []).at.saved == None;
    hide Fold, Allowed, Next;
    FoldStep(s, trace, k - 1);
    AbortedStep(s, Fold(s, trace[..k - 1]), trace[k - 1]);
    if !(trace[k - 1].Saved? && trace[k - 1].state == ABORTED) {
      AbortedSomewhere(s, trace, k - 1);
    }
  }

  /** Without a polling guard, whose timing decides, it is known beforehand how a finished run ends: it
      is recorded if and only if plan, plugin and agents give no reason to stop it, no poll saw an
      abort and no check an exceeded budget. */
  lemma RecordedIffUnguarded(s: Setup, trace: seq<Event>)
    requires Safe(s, trace) && !PluginHost.DriveOf(s.plugin).guard.Polls?
    requires var at := Fold(s, trace).at; Terminal(at.phase) && at.saved == Some(at.phase)
    ensures Fold(s, trace).at.phase == RECORDED <==> Flawless(s) && Unstopped(s, trace)
  {
    assert trace[..|trace|] == trace;
    if Fold(s, trace).at.phase == RECORDED {
      hide Allowed, Fold, Unstopped;
      RecordedMeans(s, trace);
      HeldIsFlawless(s, Fold(s, trace));
      RecordedIsUnstopped(s, trace);
    } else {
      hide Allowed, Fold, Flawless, Unstopped, Warranted;
      AbortedSomewhere(s, trace, |trace|);
      var i :| 0 <= i < |trace| && trace[i].Saved? && trace[i].state == ABORTED;
      AbortIsWarranted(s, trace, i);
      if Flawless(s) && Unstopped(s, trace) {
        NothingWarranted(s, trace, i, trace[i].reason.value);
        assert false;
      }
    }
  }

  // ----- with a guard ---------------------------------------------------------------------------------------

  /** Plan, plugin and agents give no reason to stop, the injection and its drive aside. */
  ghost predicate FlawlessAsideFromDrive(s: Setup) {
    && PlanAllowed(s.plan) && (s.plan.safety.requireAnnotation ==> Safety.Annotated(s.says.annotations)) && Healthy(s)
    && (BASELINES + VERIFICATIONS) !! s.says.raises && !PluginHost.SetUpRaises(s.plugin)
    && !PluginHost.HookRaises(s.plugin, PluginHost.CaptureBaseline)
    && !PluginHost.HookRaises(s.plugin, PluginHost.VerifyTest)
    && (Regressed(s) ==> !PluginHost.HookRaises(s.plugin, PluginHost.CollectDiagnostics))
    && (s.says.regressed ==>
      Diagnose !in s.says.raises && !s.says.rulesRaise && (s.says.active ==> ProposeFix !in s.says.raises))
  }

  /** The drive gave the injection's success back. */
  ghost predicate DriveSucceeded(trace: seq<Event>) {
    exists i | 0 <= i < |trace| :: trace[i] == InjectionEnded(Completed(true), Returned)
  }

  lemma AttackStep(s: Setup, v: View, e: Event)
    requires Allowed(s, v, e)
    ensures var w := Next(s, v, e).attack;
            if e.InjectionEnded? then v.attack.injection.None? && w.injection == Some(e.end) && w.drive == e.drive
            else w.injection == v.attack.injection && w.drive == v.attack.drive
  {
  }

  lemma {:induction false} InjectionEndsOnce(s: Setup, trace: seq<Event>, i: nat, k: nat)
    requires Safe(s, trace) && i < k <= |trace| && trace[i].InjectionEnded?
    ensures var a := Fold(s, trace[..k]).attack; a.injection == Some(trace[i].end) && a.drive == trace[i].drive
  {
    hide Safe, Fold, Next, Allowed;
    FoldStep(s, trace, k - 1);
    AllowedAt(s, trace, k - 1);
    AttackStep(s, Fold(s, trace[..k - 1]), trace[k - 1]);
    if i < k - 1 {
      InjectionEndsOnce(s, trace, i, k - 1);
    }
  }

  lemma {:induction false} EndedInjectionIsSeen(s: Setup, trace: seq<Event>, k: nat)
    requires Safe(s, trace) && k <= |trace| && Fold(s, trace[..k]).attack.injection.Some?
    ensures var a := Fold(s, trace[..k]).attack; exists i | 0 <= i < k ::
        trace[i] == InjectionEnded(a.injection.value, a.drive)
  {
    hide Safe, Fold, Next, Allowed;
    if k == 0 {
      NothingYet(s, trace);
    } else {
      FoldStep(s, trace, k - 1);
      AllowedAt(s, trace, k - 1);
      AttackStep(s, Fold(s, trace[..k - 1]), trace[k - 1]);
      if !trace[k - 1].InjectionEnded? {
        EndedInjectionIsSeen(s, trace, k - 1);
      }
    }
  }

  /** An abort that has been persisted stays justified: nothing it rests on changes any more. */
  ghost predicate AbortHolds(s: Setup, v: View) {
    v.at.saved == Some(ABORTED) ==> v.at.phase == ABORTED && AllPaid(s, v) && exists reason :: Justified(s, v, reason)
  }

  lemma AbortHoldsStep(s: Setup, v: View, e: Event)
    requires Allowed(s, v, e) && AbortHolds(s, v) && (v.at.phase == ABORTED ==> AllPaid(s, v))
    ensures AbortHolds(s, Next(s, v, e)) && (Next(s, v, e).at.phase == ABORTED ==> AllPaid(s, Next(s, v, e)))
  {
    hide CanHook;
    if v.at.saved == Some(ABORTED) {
      var reason :| Justified(s, v, reason);
      assert Justified(s, Next(s, v, e), reason);
    } else if e.Saved? && e.state == ABORTED {
      assert Justified(s, Next(s, v, e), e.reason.value);
    }
  }

  lemma {:induction false} AbortAlwaysHolds(s: Setup, trace: seq<Event>, k: nat)
    requires Safe(s, trace) && k <= |trace|
    ensures var v := Fold(s, trace[..k]); AbortHolds(s, v) && (v.at.phase == ABORTED ==> AllPaid(s, v))
  {
    hide Safe, Fold, Next, Allowed;
    if k == 0 {
      NothingYet(s, trace);
    } else {
      hide AbortHolds, AllPaid;
      AbortAlwaysHolds(s, trace, k - 1);
      FoldStep(s, trace, k - 1);
      AllowedAt(s, trace, k - 1);
      AbortHoldsStep(s, Fold(s, trace[..k - 1]), trace[k - 1]);
    }
  }

  /** A drive that succeeded, and nothing else to blame: no abort can be justified. */
  lemma NothingJustified(s: Setup, v: View, reason: AbortReason)
    requires Sourced(s, v) && FlawlessAsideFromDrive(s) && v.signals.killed.None? && !Overspent(s, v)
    requires v.attack.injection == Some(Completed(true)) && v.attack.drive.Returned?
    ensures !Justified(s, v, reason)
  {
  }

  lemma UnstoppedView(s: Setup, trace: seq<Event>)
    requires Safe(s, trace) && Unstopped(s, trace)
    ensures Fold(s, trace).signals.killed.None? && !Overspent(s, Fold(s, trace))
  {
    hide Safe, Allowed, Fold;
    assert trace[..|trace|] == trace;
    var v := Fold(s, trace);
    KilledMeansRequested(s, trace, |trace|);
    ViewIsWitnessed(s, trace, |trace|);
  }

  lemma HeldIsFlawlessAsideFromDrive(s: Setup, v: View)
    requires RunHeld(s, v) && v.filed !! s.says.raises
    requires PlanAllowed(s.plan) && (s.plan.safety.requireAnnotation ==> Safety.Annotated(s.says.annotations))
    ensures FlawlessAsideFromDrive(s)
  {
    hide PlanAllowed;
    assert BASELINES + VERIFICATIONS <= v.filed;
  }

  /** For every plugin: a finished run is recorded if and only if plan, plugin and agents give no reason
      to stop it, the drive gave back a successful injection, no poll saw an abort and no check an
      exceeded budget. */
  lemma RecordedIff(s: Setup, trace: seq<Event>)
    requires Safe(s, trace)
    requires var at := Fold(s, trace).at; Terminal(at.phase) && at.saved == Some(at.phase)
    ensures Fold(s, trace).at.phase == RECORDED <==>
       FlawlessAsideFromDrive(s) && Unstopped(s, trace) && DriveSucceeded(trace)
  {
    assert trace[..|trace|] == trace;
    hide Safe, Allowed, Fold, Unstopped, FlawlessAsideFromDrive;
    var v := Fold(s, trace);
    if v.at.phase == RECORDED {
      RecordedMeans(s, trace);
      HeldIsFlawlessAsideFromDrive(s, v);
      RecordedIsUnstopped(s, trace);
      EndedInjectionIsSeen(s, trace, |trace|);
    } else if FlawlessAsideFromDrive(s) && Unstopped(s, trace) && DriveSucceeded(trace) {
      var i :| 0 <= i < |trace| && trace[i] == InjectionEnded(Completed(true), Returned);
      InjectionEndsOnce(s, trace, i, |trace|);
      ThroughAlways(s, trace, |trace|);
      UnstoppedView(s, trace);
      AbortAlwaysHolds(s, trace, |trace|);
      var reason :| Justified(s, v, reason);
      NothingJustified(s, v, reason);
      assert false;
    }
  }

  lemma HeldIsFlawless(s: Setup, v: View)
    requires RunHeld(s, v) && s.says.success && v.filed !! s.says.raises && !PluginHost.DriveOf(s.plugin).guard.Polls?
    requires PlanAllowed(s.plan) && (s.plan.safety.requireAnnotation ==> Safety.Annotated(s.says.annotations))
    requires !PluginHost.DriveOf(s.plugin).guard.FactoryRaises?
    ensures Flawless(s)
  {
    hide PlanAllowed;
    assert MEASURING <= v.filed;
  }

  lemma NothingWarranted(s: Setup, trace: seq<Event>, k: nat, reason: AbortReason)
    requires k <= |trace| && Flawless(s) && Unstopped(s, trace) && !PluginHost.DriveOf(s.plugin).guard.Polls?
    ensures !Warranted(s, trace, k, reason)
  {
    InjectionDoesNotRaise(s);
    hide Failure, Healthy;
  }

  lemma InjectionDoesNotRaise(s: Setup)
    requires !Failure(s)
    ensures Execute !in s.says.raises
  {
    assert Execute in s.says.raises ==> Execute in s.says.raises * MEASURING;
  }

  lemma RecordedIsUnstopped(s: Setup, trace: seq<Event>)
    requires Safe(s, trace) && Fold(s, trace).at.phase == RECORDED
    ensures Unstopped(s, trace)
  {
    assert trace[..|trace|] == trace;
    forall i | 0 <= i < |trace| ensures !Exceeds(s, trace[i]) && (trace[i].Polled? ==> !trace[i].flags.abort) {
      if Stops(s, trace[i]) {
        StoppedStays(s, trace, i, |trace|);
      }
    }
  }

  lemma StoppedStep(s: Setup, v: View, e: Event)
    requires Allowed(s, v, e) && v.at.phase != RECORDED && (Overspent(s, v) || v.signals.killed.Some?)
    ensures Next(s, v, e).at.phase != RECORDED
  {
  }

  predicate Stops(s: Setup, e: Event) {
    Exceeds(s, e) || (e.Polled? && e.flags.abort)
  }

  lemma StopIsNoRecord(s: Setup, v: View, e: Event)
    requires Allowed(s, v, e) && Stops(s, e)
    ensures Next(s, v, e).at.phase != RECORDED
  {
  }

  lemma {:induction false} StoppedStays(s: Setup, trace: seq<Event>, k: nat, n: nat)
    requires Safe(s, trace) && k < n <= |trace| && Stops(s, trace[k])
    ensures Fold(s, trace[..n]).at.phase != RECORDED
  {
    hide Safe, Fold, Next, Allowed, Exceeds;
    FoldStep(s, trace, n - 1);
    var v := Fold(s, trace[..n - 1]);
    if k < n - 1 {
      StoppedStays(s, trace, k, n - 1);
      if Exceeds(s, trace[k]) {
        OverspentStays(s, trace, k, n - 1);
      } else {
        KilledStays(s, trace, k, n - 1);
      }
      AllowedAt(s, trace, n - 1);
      StoppedStep(s, v, trace[n - 1]);
    } else {
      AllowedAt(s, trace, k);
      StopIsNoRecord(s, v, trace[k]);
    }
  }

  // ----- the bill -----------------------------------------------------------------------------------------------

  /** What the agents called so far cost, the injection aside. */
  function OthersCost(s: Setup, trace: seq<Event>): real {
    if trace == [] then 0.0
    else
      var e := trace[|trace| - 1];
      OthersCost(s, trace[..|trace| - 1]) + CostBy(s, e)
  }

  function InjectionCost(s: Setup, v: View): real {
    match v.attack.injection
    case None => 0.0
    case Some(end) => if end == Cut then s.says.cutCost else s.says.cost(Execute)
  }

  /** What has been spent, and what is still due for the last call. */
  predicate Balanced(s: Setup, v: View, others: real) {
    && (v.money.paid && v.last == Some(Execute) ==> v.attack.injection.Some?)
    && (!v.money.paid ==> v.last.Some?)
    && v.money.spent + (if v.money.paid || (v.last == Some(Execute) && v.attack.injection.None?) then 0.0
       else Due(s, v))
       == others + InjectionCost(s, v)
  }

  function CostBy(s: Setup, e: Event): real {
    if e.Started? && e.agent != Execute then s.says.cost(e.agent) else 0.0
  }

  lemma BalancedStep(s: Setup, v: View, e: Event, others: real)
    requires Allowed(s, v, e) && Balanced(s, v, others) && s.base.Some?
    ensures Balanced(s, Next(s, v, e), others + CostBy(s, e))
  {
    hide CanEnter, CanSave, CanPoll, CanHook, CanEnd;
  }

  lemma OthersCostMore(s: Setup, trace: seq<Event>, k: nat)
    requires k < |trace|
    ensures OthersCost(s, trace[..k + 1])
         == OthersCost(s, trace[..k]) + CostBy(s, trace[k])
  {
    var more := trace[..k + 1];
    assert more[..|more| - 1] == trace[..k] && more[|more| - 1] == trace[k];
  }

  lemma {:induction false} AlwaysBalanced(s: Setup, trace: seq<Event>, k: nat)
    requires Safe(s, trace) && k <= |trace| && s.base.Some?
    ensures Balanced(s, Fold(s, trace[..k]), OthersCost(s, trace[..k]))
  {
    hide Safe, Fold, Next, Allowed, OthersCost;
    if k == 0 {
      NothingYet(s, trace);
      NoCostYet(s, trace);
    } else {
      hide Balanced;
      AlwaysBalanced(s, trace, k - 1);
      FoldStep(s, trace, k - 1);
      AllowedAt(s, trace, k - 1);
      BalancedStep(s, Fold(s, trace[..k - 1]), trace[k - 1], OthersCost(s, trace[..k - 1]));
      OthersCostMore(s, trace, k - 1);
    }
  }

  lemma NoCostYet(s: Setup, trace: seq<Event>)
    ensures OthersCost(s, trace[..0]) == 0.0
  {
  }

  /** A run spends what the agents it called cost, neither more nor less; of an injection that was cut
      off, what it had cost until then. */
  lemma SpendIsTheBill(s: Setup, trace: seq<Event>)
    requires Safe(s, trace) && s.base.Some? && AllPaid(s, Fold(s, trace))
    ensures Fold(s, trace).money.spent == OthersCost(s, trace) + InjectionCost(s, Fold(s, trace))
  {
    assert trace[..|trace|] == trace;
    AlwaysBalanced(s, trace, |trace|);
  }
}

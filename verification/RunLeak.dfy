/** Which experiments can leave a fault behind, told before they run: those that can get as far as the
    injection with a plugin whose workload or guard can break. */
module RunLeak {
  import opened Contracts
  import opened Prelude
  import opened RunTrace
  import opened RunProperties
  import opened RunOutcome
  import opened RunResidue
  import Chaos
  import PluginHost
  import Safety
  import Store

  // ----- what it takes to get to the injection -----------------------------------------------------

  ghost predicate CostsNothingBack(s: Setup) {
    s.says.cutCost >= 0.0 && forall agent :: s.says.cost(agent) >= 0.0
  }

  /** What the budget check before the injection reads at least. */
  function Needed(s: Setup): real {
    if s.base.None? then 0.0
    else
      s.base.value + (if s.plan.safety.requireAnnotation then s.says.cost(ReadAnnotations) else 0.0)
      + s.says.cost(TesterBaseline) + s.says.cost(SecurityBaseline)
  }

  /** Plan, plugin, agents, budget and the flags on the row let a run get to the injection. */
  ghost predicate CanInject(s: Setup) {
    && PlanAllowed(s.plan) && (s.plan.safety.requireAnnotation ==> Safety.Annotated(s.says.annotations))
    && !s.flags.abort && Safety.WithinBudget(s.plan.budget, Needed(s), 0.0)
    && BASELINES !! s.says.raises && Healthy(s)
    && !PluginHost.SetUpRaises(s.plugin) && !PluginHost.HookRaises(s.plugin, PluginHost.CaptureBaseline)
    && !PluginHost.DriveOf(s.plugin).guard.FactoryRaises?
  }

  /** What the calls on the way to the injection that are known to have been made cost together. */
  function Owed(s: Setup, v: View): real {
    (if v.gates.annotated || v.last == Some(ReadAnnotations) then s.says.cost(ReadAnnotations) else 0.0)
    + (if TesterBaseline in v.filed || v.last == Some(TesterBaseline) then s.says.cost(TesterBaseline) else 0.0)
    + (if SecurityBaseline in v.filed || v.last == Some(SecurityBaseline) then s.says.cost(SecurityBaseline) else 0.0)
  }

  function Pending(s: Setup, v: View): real {
    if v.money.paid || v.last == Some(Execute) then 0.0 else Due(s, v)
  }

  predicate Charged(s: Setup, v: View) {
    && (s.base.Some? ==> v.money.spent + Pending(s, v) >= Owed(s, v))
    && (v.money.checked.Some? ==>
          && v.money.checked.value.1 >= 0.0
          && v.money.checked.value.0 >= if s.base.Some? then s.base.value + Owed(s, v) else 0.0)
  }

  /** An abort on the row from the start is seen by every poll. */
  predicate AbortSeen(s: Setup, v: View) {
    s.flags.abort ==>
      Terminal(v.at.phase) || (v.signals.flags.abort && (v.signals.polled.Some? ==> v.signals.polled.value.abort))
  }

  /** What is known once the injection has been called. */
  predicate GotThere(s: Setup, v: View) {
    v.last == Some(Execute) ==> !s.flags.abort && Safety.WithinBudget(s.plan.budget, Needed(s), 0.0)
  }

  lemma ChargedStep(s: Setup, v: View, e: Event)
    requires CostsNothingBack(s) && Allowed(s, v, e) && Charged(s, v)
    ensures Charged(s, Next(s, v, e))
  {
    hide Explained, Justified, CanEnter, CanSave, CanEnd;
    assert s.says.cost(ReadAnnotations) >= 0.0 && s.says.cost(TesterBaseline) >= 0.0
        && s.says.cost(SecurityBaseline) >= 0.0;
    if e.Entered? || e.Saved? {
      assert Owed(s, Next(s, v, e)) == Owed(s, v);
    }
  }

  lemma AbortSeenStep(s: Setup, v: View, e: Event)
    requires Allowed(s, v, e) && AbortSeen(s, v) && TerminalAgrees(v)
    ensures AbortSeen(s, Next(s, v, e))
  {
  }

  lemma GotThereStep(s: Setup, v: View, e: Event)
    requires CostsNothingBack(s) && Allowed(s, v, e) && Charged(s, v) && AbortSeen(s, v) && GotThere(s, v)
        && Through(s, v)
    ensures GotThere(s, Next(s, v, e))
  {
    if e == Started(Execute) {
      assert TesterBaseline in BASELINES && SecurityBaseline in BASELINES;
      assert s.says.cost(ReadAnnotations) >= 0.0;
      assert s.base.Some? ==> s.base.value + Owed(s, v) >= Needed(s);
    }
  }

  lemma {:induction false} GotThereAlways(s: Setup, trace: seq<Event>, k: nat)
    requires CostsNothingBack(s) && Safe(s, trace) && k <= |trace|
    ensures var v := Fold(s, trace[..k]); Charged(s, v) && AbortSeen(s, v) && GotThere(s, v)
  {
    hide Safe, Fold, Next, Allowed, CostsNothingBack, Through, Sourced, TerminalAgrees;
    if k == 0 {
      NothingYet(s, trace);
    } else {
      hide Charged, AbortSeen, GotThere;
      var v, e := Fold(s, trace[..k - 1]), trace[k - 1];
      GotThereAlways(s, trace, k - 1);
      FoldStep(s, trace, k - 1);
      AllowedAt(s, trace, k - 1);
      TerminalAgreesAlways(s, trace, k - 1);
      ThroughAlways(s, trace, k - 1);
      ChargedStep(s, v, e);
      AbortSeenStep(s, v, e);
      GotThereStep(s, v, e);
    }
  }

  /** A run in which an injection ends could get to the injection. */
  lemma InjectionNeeds(s: Setup, trace: seq<Event>, k: nat)
    requires CostsNothingBack(s) && Safe(s, trace) && k < |trace| && trace[k].InjectionEnded?
    ensures CanInject(s)
  {
    hide Safe, Fold, CostsNothingBack, PlanAllowed;
    AllowedAt(s, trace, k);
    ThroughAlways(s, trace, k);
    GotThereAlways(s, trace, k);
  }

  // ----- a run that leaves a fault behind -------------------------------------------------------------

  ghost predicate Runs(s: Setup, trace: seq<Event>, v: View) {
    Safe(s, trace) && Fold(s, trace) == v
  }

  lemma Add(s: Setup, trace: seq<Event>, v: View, e: Event) returns (more: seq<Event>, w: View)
    requires Runs(s, trace, v) && Allowed(s, v, e)
    ensures Runs(s, more, w) && more == trace + [e] && w == Next(s, v, e)
  {
    hide Safe, Fold, Allowed, Next;
    Extends(s, trace, e);
    more, w := trace + [e], Next(s, v, e);
  }

  /** With a harness, the call is paid for. */
  lemma Pay(s: Setup, trace: seq<Event>, v: View) returns (more: seq<Event>, w: View)
    requires CostsNothingBack(s) && Runs(s, trace, v) && v.last.Some? && !v.money.paid
    requires v.last == Some(Execute) ==> v.attack.injection.Some?
    ensures Runs(s, more, w) && trace <= more && AllPaid(s, w)
    ensures w == if s.base.Some? then WithSpend(v, Due(s, v)) else v
  {
    hide Runs;
    more, w := trace, v;
    if s.base.Some? {
      assert Due(s, v) >= 0.0;
      more, w := Add(s, trace, v, Spent(Due(s, v)));
    }
  }

  /** Under way, with nothing in the way. */
  ghost predicate UnderWay(s: Setup, v: View, phase: ExperimentState) {
    && v.at == Progress(phase, false, Some(phase)) && v.gates.opened_ && !v.gates.closed
    && (s.plan.safety.requireAnnotation ==> v.gates.annotated)
    && v.signals.killed.None? && !v.signals.flags.abort && !v.signals.flags.pause
    && v.money.checked.None? && AllPaid(s, v) && v.attack == NO_ATTACK && !Unfiled(s, v) && !Pausing(v)
  }

  /** The session is open and no agent has been called. */
  function Opened(s: Setup): View {
    var v := Start(s);
    v.(at := v.at.(saved := Some(INITIALIZING)), gates := v.gates.(opened_ := true))
  }

  lemma OpenRun(s: Setup) returns (t: seq<Event>, v: View)
    requires CanInject(s) && CostsNothingBack(s)
    ensures Runs(s, t, v) && UnderWay(s, v, INITIALIZING) && v.course.hooks == []
    ensures s.base.Some? ==> v.money.spent == if s.plan.safety.requireAnnotation then s.says.cost(ReadAnnotations)
        else 0.0
  {
    Begins(s);
    t, v := [], Start(s);
    assert Runs(s, t, v);
    hide Runs, CostsNothingBack, PlanAllowed;
    t, v := Add(s, t, v, Saved(INITIALIZING, None, false));
    t, v := Add(s, t, v, SessionOpened);
    t, v := Add(s, t, v, Saved(INITIALIZING, None, false));
    assert v == Opened(s);
    t, v := AnnotationsOf(s, t, v);
    t, v := Add(s, t, v, Wrote(Store.SetPause(false)));
  }

  lemma AnnotationsOf(s: Setup, trace: seq<Event>, v: View) returns (t: seq<Event>, w: View)
    requires CanInject(s) && CostsNothingBack(s) && Runs(s, trace, v) && v == Opened(s)
    ensures Runs(s, t, w) && !Unfiled(s, w) && w == v.(last := w.last, money := w.money,
        gates := v.gates.(annotated := w.gates.annotated))
    ensures s.plan.safety.requireAnnotation ==> w.gates.annotated
    ensures w.money.checked.None? && AllPaid(s, w)
    ensures s.base.Some? ==> w.money.spent == if s.plan.safety.requireAnnotation then s.says.cost(ReadAnnotations)
        else 0.0
  {
    hide Runs, CostsNothingBack, PlanAllowed;
    t, w := trace, v;
    if s.plan.safety.requireAnnotation {
      t, w := Add(s, t, w, Started(ReadAnnotations));
      t, w := Pay(s, t, w);
      t, w := Add(s, t, w, AnnotationsRead(s.says.annotations));
    }
  }

  lemma CallBaseline(s: Setup, trace: seq<Event>, v: View, agent: Agent) returns (t: seq<Event>, w: View)
    requires CostsNothingBack(s) && Runs(s, trace, v) && CanCall(s, v, agent) && agent in BASELINES
    ensures Runs(s, t, w)
    ensures w == AfterCall(v, agent).(money := w.money) && w.money.checked.None? && AllPaid(s, w)
    ensures s.base.Some? ==> w.money.spent == v.money.spent + s.says.cost(agent)
  {
    hide Runs, CanCall, CostsNothingBack;
    t, w := Add(s, trace, v, Started(agent));
    t, w := Pay(s, t, w);
  }

  lemma EnterBaseline(s: Setup, trace: seq<Event>, v: View) returns (t: seq<Event>, w: View)
    requires CanInject(s) && Runs(s, trace, v) && UnderWay(s, v, INITIALIZING)
    ensures Runs(s, t, w) && UnderWay(s, w, BASELINE) && Clear(w) && w.money == v.money && w.course == v.course
  {
    hide Runs, PlanAllowed;
    t, w := Add(s, trace, v, Polled(v.signals.flags));
    t, w := Add(s, t, w, Entered(BASELINE));
    t, w := Add(s, t, w, Saved(BASELINE, None, false));
  }

  lemma HearTesterOf(s: Setup, trace: seq<Event>, v: View) returns (t: seq<Event>, w: View)
    requires CanInject(s) && CostsNothingBack(s) && Runs(s, trace, v) && UnderWay(s, v, BASELINE) && Clear(v)
    ensures Runs(s, t, w) && UnderWay(s, w, BASELINE) && w.last == Some(TesterBaseline) && w.course == v.course
    ensures w.gates.steady && TesterBaseline in w.filed
    ensures s.base.Some? ==> w.money.spent == v.money.spent + s.says.cost(TesterBaseline)
  {
    hide Runs, CostsNothingBack, PlanAllowed;
    t, w := CallBaseline(s, trace, v, TesterBaseline);
    t, w := Add(s, t, w, TesterSaid(true));
    t, w := Add(s, t, w, Filed(TesterBaseline));
  }

  lemma HearSecurityOf(s: Setup, trace: seq<Event>, v: View) returns (t: seq<Event>, w: View)
    requires CanInject(s) && CostsNothingBack(s) && Runs(s, trace, v) && UnderWay(s, v, BASELINE)
    requires v.last == Some(TesterBaseline) && v.gates.steady && TesterBaseline in v.filed
    ensures Runs(s, t, w) && UnderWay(s, w, BASELINE) && w.last == Some(SecurityBaseline) && w.course == v.course
    ensures w.gates.steady && w.gates.secure && BASELINES <= w.filed
    ensures s.base.Some? ==> w.money.spent == v.money.spent + s.says.cost(SecurityBaseline)
  {
    hide Runs, CostsNothingBack, PlanAllowed;
    t, w := CallBaseline(s, trace, v, SecurityBaseline);
    t, w := Add(s, t, w, SecuritySaid(false));
    t, w := Add(s, t, w, Filed(SecurityBaseline));
  }

  lemma PassBaselines(s: Setup, trace: seq<Event>, v: View) returns (t: seq<Event>, w: View)
    requires CanInject(s) && Runs(s, trace, v) && UnderWay(s, v, BASELINE)
    requires v.gates.steady && v.gates.secure && BASELINES <= v.filed && v.course.hooks == []
    ensures Runs(s, t, w) && UnderWay(s, w, BASELINE_OK) && w == v.(at := w.at, course := w.course)
    ensures w.course.hooks == CAPTURED
  {
    hide Runs, PlanAllowed, Explained, Justified;
    t, w := Add(s, trace, v, Hooked(PluginHost.CaptureBaseline));
    t, w := Add(s, t, w, Entered(BASELINE_OK));
    t, w := Add(s, t, w, Saved(BASELINE_OK, None, false));
  }

  lemma GatesOf(s: Setup, trace: seq<Event>, v: View) returns (t: seq<Event>, w: View)
    requires CanInject(s) && Runs(s, trace, v) && UnderWay(s, v, BASELINE_OK)
    requires s.base.Some? ==> s.base.value + v.money.spent == Needed(s)
    ensures Runs(s, t, w) && UnderWay(s, w.(money := w.money.(checked := None)), BASELINE_OK) && Ready(s, w)
        && AllPaid(s, w)
    ensures w.gates == v.gates && w.course == v.course && !Overspent(s, w)
  {
    hide Runs, PlanAllowed;
    t, w := Add(s, trace, v, BudgetChecked(Needed(s), 0.0));
    t, w := Add(s, t, w, Polled(w.signals.flags));
  }

  lemma EnterInjection(s: Setup, trace: seq<Event>, v: View) returns (t: seq<Event>, w: View)
    requires CanInject(s) && Runs(s, trace, v) && !Overspent(s, v)
    requires UnderWay(s, v.(money := v.money.(checked := None)), BASELINE_OK) && Ready(s, v) && AllPaid(s, v)
    ensures Runs(s, t, w) && UnderWay(s, w.(money := w.money.(checked := None)), INJECT) && Ready(s, w) && AllPaid(s, w)
    ensures w.gates == v.gates && w.course == v.course
  {
    hide Runs, PlanAllowed, CanInject, Explained, Justified;
    t, w := Add(s, trace, v, Entered(INJECT));
    t, w := Add(s, t, w, Saved(INJECT, None, false));
  }

  /** What the drive of such a plugin can give back when it cuts the injection off. */
  function StrayEnd(s: Setup): DriveEnd {
    if PluginHost.DriveBreaks(s.plugin) then Threw else Tripped
  }

  lemma CutOf(s: Setup, trace: seq<Event>, v: View) returns (t: seq<Event>, w: View)
    requires CanInject(s) && MayStray(s)
    requires Runs(s, trace, v) && UnderWay(s, v.(money := v.money.(checked := None)), INJECT) && Ready(s, v)
        && AllPaid(s, v)
    requires v.gates.steady && v.gates.secure && v.course.hooks == CAPTURED
    ensures Runs(s, t, w) && t == trace
      + [Hooked(PluginHost.RunTest), Started(Execute), InjectionEnded(Cut, StrayEnd(s))]
    ensures w == AfterCall(v, Execute).(attack := Attack(Some(Cut), StrayEnd(s), false), course := w.course,
        money := w.money) && !w.money.paid && w.money.checked.None?
    ensures w.course.hooks == DRIVEN
  {
    hide Runs, PlanAllowed;
    t, w := Add(s, trace, v, Hooked(PluginHost.RunTest));
    t, w := Add(s, t, w, Started(Execute));
    t, w := Add(s, t, w, InjectionEnded(Cut, StrayEnd(s)));
  }

  /** The injection has been cut off, and nobody owes a cleanup. */
  ghost predicate Stranded(s: Setup, v: View) {
    && v.at == Progress(INJECT, false, Some(INJECT)) && AllPaid(s, v) && v.signals.killed.None? && v.money.checked.None?
    && v.attack == Attack(Some(Cut), StrayEnd(s), false) && v.last == Some(Execute) && v.gates.opened_
    && !v.gates.closed && v.course.hooks == DRIVEN && !Pausing(v)
  }

  lemma Abandon(s: Setup, trace: seq<Event>, v: View) returns (t: seq<Event>, w: View)
    requires Runs(s, trace, v) && Stranded(s, v)
    ensures Runs(s, t, w) && trace <= t && Terminal(w.at.phase) && w.cleared && w.gates.closed
  {
    hide Runs;
    t, w := Add(s, trace, v, Entered(INJECT_FAILED));
    if StrayEnd(s).Tripped? {
      t, w := Add(s, t, w, Hooked(PluginHost.CollectDiagnostics));
    }
    if StrayEnd(s).Tripped? && PluginHost.HookRaises(s.plugin, PluginHost.CollectDiagnostics) {
      // The exception of the diagnostics hook leaves the session first.
      t, w := Add(s, t, w, SessionClosed);
      BreakageJustifies(s, w);
      t, w := SaveAbort(s, t, w, AgentFailure);
    } else {
      var reason := if StrayEnd(s).Tripped? then SloBreach else AgentFailure;
      if StrayEnd(s).Tripped? { TripJustifies(s, w); } else { BreakageJustifies(s, w); }
      t, w := SaveAbort(s, t, w, reason);
      JustifiedWhenClosed(s, w, reason);
      t, w := Add(s, t, w, SessionClosed);
    }
    t, w := SaveOnceMore(s, t, w);
  }

  lemma SaveAbort(s: Setup, trace: seq<Event>, v: View, reason: AbortReason) returns (t: seq<Event>, w: View)
    requires Runs(s, trace, v) && v.at == Progress(INJECT_FAILED, false, Some(INJECT)) && Justified(s, v, reason)
    requires AllPaid(s, v) && v.signals.killed.None? && v.money.checked.None? && !v.attack.owesCleanup
    requires !Unfiled(s, v) && !Pausing(v)
    ensures Runs(s, t, w) && trace <= t && w.at == Progress(ABORTED, false, Some(ABORTED)) && w.cleared
    ensures w.gates == v.gates && w.signals.killed.None? && Justified(s, w, reason)
  {
    hide Runs, Explained;
    t, w := Add(s, trace, v, Entered(ABORTED));
    JustifiedElsewhere(s, v, w, reason);
    t, w := Add(s, t, w, Saved(ABORTED, Some(reason), true));
    t, w := Add(s, t, w, Cleared);
    JustifiedElsewhere(s, v, w, reason);
  }

  /** With the audit trail of the teardown. */
  lemma SaveOnceMore(s: Setup, trace: seq<Event>, v: View) returns (t: seq<Event>, w: View)
    requires Runs(s, trace, v) && v.at == Progress(ABORTED, false, Some(ABORTED)) && v.cleared && v.gates.closed
    requires v.signals.killed.None? && exists reason :: Justified(s, v, reason)
    ensures Runs(s, t, w) && trace <= t && Terminal(w.at.phase) && w.cleared && w.gates.closed
  {
    hide Runs, Explained;
    var reason :| Justified(s, v, reason);
    t, w := Add(s, trace, v, Saved(ABORTED, Some(reason), true));
  }

  /** The failing run, event by event as the loop leaves them: the gates pass, the injection starts, the
      workload or the guard stops it, and the run is aborted without a cleanup. */
  lemma CutRun(s: Setup) returns (trace: seq<Event>, i: nat)
    requires CanInject(s) && CostsNothingBack(s) && MayStray(s)
    ensures Safe(s, trace) && Terminal(Fold(s, trace).at.phase) && Fold(s, trace).cleared && Fold(s, trace).gates.closed
    ensures i < |trace| && Strays(s, trace[i])
  {
    var v;
    trace, v := UpToInjection(s);
    trace, v := CutOf(s, trace, v);
    i := |trace| - 1;
    ghost var cut := trace;
    assert Strays(s, cut[i]);
    hide CanInject, CostsNothingBack, Safe, Fold;
    trace, v := Pay(s, trace, v);
    trace, v := Abandon(s, trace, v);
    assert trace[i] == cut[i];
  }

  lemma UpToInjection(s: Setup) returns (t: seq<Event>, v: View)
    requires CanInject(s) && CostsNothingBack(s)
    ensures Runs(s, t, v) && UnderWay(s, v.(money := v.money.(checked := None)), INJECT) && Ready(s, v) && AllPaid(s, v)
    ensures v.gates.steady && v.gates.secure && v.course.hooks == CAPTURED
  {
    hide Runs, CanInject, CostsNothingBack, UnderWay, Ready, Clear;
    t, v := OpenRun(s);
    t, v := EnterBaseline(s, t, v);
    t, v := HearTesterOf(s, t, v);
    t, v := HearSecurityOf(s, t, v);
    NeededIsSpent(s);
    t, v := PassBaselines(s, t, v);
    t, v := GatesOf(s, t, v);
    t, v := EnterInjection(s, t, v);
  }

  lemma NeededIsSpent(s: Setup)
    ensures s.base.Some? ==>
      Needed(s) == s.base.value + ((if s.plan.safety.requireAnnotation then s.says.cost(ReadAnnotations) else 0.0)
                                   + s.says.cost(TesterBaseline) + s.says.cost(SecurityBaseline))
  {
  }

  /** What that run leaves behind, with an agent whose deletes would all have succeeded. */
  lemma LeakingRun(s: Setup, before: Chaos.Table, plan: Chaos.Target, reg: Chaos.Registry)
      returns (trace: seq<Event>, shots: Shots)
    requires CanInject(s) && CostsNothingBack(s) && MayStray(s)
    requires Chaos.NewTo(before, plan, reg) && Chaos.Admissible(plan, reg) && plan.faults != []
    ensures Safe(s, trace) && Terminal(Fold(s, trace).at.phase) && Conforms(shots)
    ensures ClusterAfter(before, trace, Bench(plan, reg, shots)) == before + [Chaos.Render(plan.faults[0], plan, reg)]
  {
    hide Safe, Fold, CanInject, CostsNothingBack, MayStray, Strays, ClusterAfter, Conforms, Chaos.NewTo;
    var i;
    trace, i := CutRun(s);
    shots := CutInjectionLeavesAFault(s, trace, i, before, plan, reg);
  }

  // ----- exactly when -----------------------------------------------------------------------------------

  /** The exact condition, over every run and every agent whose deletes succeed: no injected fault
      outlives the run if and only if the run cannot get to the injection at all, or neither workload
      nor guard can stop it but by a signal that the agent follows with a cleanup. */
  lemma NoFaultOutlivesAnyRunIff(s: Setup, before: Chaos.Table, plan: Chaos.Target, reg: Chaos.Registry)
    requires CostsNothingBack(s)
    requires Chaos.SweepableKinds(reg) && Chaos.NewTo(before, plan, reg) && Chaos.Admissible(plan, reg)
        && plan.faults != []
    ensures (forall trace, shots | Safe(s, trace) && Terminal(Fold(s, trace).at.phase) && Conforms(shots) ::
              ClusterAfter(before, trace, Bench(plan, reg, shots)) == before) <==>
       !(CanInject(s) && MayStray(s))
  {
    hide Safe, Fold, CanInject, CostsNothingBack, MayStray, ClusterAfter, Conforms;
    if CanInject(s) && MayStray(s) {
      var trace, shots := LeakingRun(s, before, plan, reg);
      assert |ClusterAfter(before, trace, Bench(plan, reg, shots))| == |before| + 1;
    } else {
      forall trace, shots | Safe(s, trace) && Terminal(Fold(s, trace).at.phase) && Conforms(shots)
        ensures ClusterAfter(before, trace, Bench(plan, reg, shots)) == before
      {
        if i :| 0 <= i < |trace| && Strays(s, trace[i]) {
          InjectionNeeds(s, trace, i);
          StrayNeedsACause(s, trace, i);
        }
        NoFaultOutlivesTheRun(s, trace, before, Bench(plan, reg, shots));
      }
    }
  }

  // ----- the smallest case --------------------------------------------------------------------------------

  const TARGET := SafetyConstraints("kind-chaos", "demo", 60, false, false, [])
  const KILL := FaultSpec("pod.kill", 10)

  /** A plugin that overrides nothing but `run_test`, which raises. */
  const RAISING := PluginHost.Plugin(map[],
    PluginHost.DriveScript(Some(Some(PluginHost.Breaks)), PluginHost.NoGuard, [], []), None)

  function RaisingSetup(): Setup {
    Setup(Plan("exp-00000001", TARGET, [KILL], TokenBudget(1.0, 2.0, 600.0)), Store.NO_FLAGS, None, true, Some(RAISING),
          Answers(None, {}, false, true, true, true, false, false, false, _ => 0.0, 0.0))
  }

  lemma SetUpIsQuiet()
    ensures !PluginHost.SetUpRaises(Some(RAISING))
  {
    NothingRaises(PluginHost.EMPTY, PluginHost.SETUP);
  }

  lemma {:induction false} NothingRaises(s: PluginHost.Scopes, steps: seq<PluginHost.Step>)
    requires s.failure.None?
    ensures PluginHost.Advanced(RAISING, s, steps).failure.None?
    decreases |steps|
  {
    if steps != [] {
      NothingRaises(PluginHost.Taken(RAISING, s, steps[0]), steps[1..]);
    }
  }

  lemma NothingIsThere(plan: Chaos.Target, reg: Chaos.Registry)
    ensures Chaos.NewTo([], plan, reg)
  {
  }

  lemma RaisingCanInject()
    ensures var s := RaisingSetup(); CanInject(s) && CostsNothingBack(s) && MayStray(s) && s.canCleanUp
  {
    SetUpIsQuiet();
    hide PluginHost.SetUpRaises;
  }

  /** One pod kill, every gate passed, on an empty cluster: the workload raises while the fault stands,
      the run ends, and the resource is still there. */
  lemma RaisingWorkloadLeavesAFault(plan: Chaos.Target, reg: Chaos.Registry) returns (trace: seq<Event>, shots: Shots)
    requires plan.faults == [KILL] && Chaos.Admissible(plan, reg)
    ensures var s := RaisingSetup(); Safe(s, trace) && Terminal(Fold(s, trace).at.phase) && s.canCleanUp
    ensures Conforms(shots) && ClusterAfter([], trace, Bench(plan, reg, shots))
        == [Chaos.Render(plan.faults[0], plan, reg)]
  {
    var s := RaisingSetup();
    RaisingCanInject();
    NothingIsThere(plan, reg);
    hide *;
    trace, shots := LeakingRun(s, [], plan, reg);
  }
}

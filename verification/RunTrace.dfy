/** What may happen in one experiment run, and in which order: the events a run leaves behind, what
    can be told from the events so far, and which event is allowed next. The guarantees of the run
    protocol are consequences of every event having been allowed. */
module RunTrace {
  import opened Contracts
  import opened Prelude
  import PluginHost
  import Safety
  import Store

  datatype Plan = Plan(experimentId: string, safety: SafetyConstraints, faults: seq<FaultSpec>, budget: TokenBudget)

  datatype Agent =
    | ReadAnnotations
    | TesterBaseline
    | SecurityBaseline
    | Execute
    | Cleanup
    | TesterVerify
    | SecurityVerify
    | Diagnose
    | ProposeFix

  /** How the injection task ended: with a timeline, with an exception, or cut off by the driver. */
  datatype InjectionEnd = Completed(success: bool) | Broke | Cut

  /** What the drive gave back: the injection's result, the signal of a tripped guard, or any other
      exception. */
  datatype DriveEnd = Returned | Tripped | Threw

  /** `Hooked` notes a hook of the plugin between set-up and teardown, with RunTest for the drive, and
      `Judged` that the plugin's verdict, if any, is on record. */
  datatype Event =
    | Entered(state: ExperimentState)
    | Saved(state: ExperimentState, reason: Option<AbortReason>, finished: bool)
    | Wrote(write: Store.Write)
    | Cleared
    | Polled(flags: Store.Flags)
    | BudgetChecked(spent: real, elapsed: real)
    | SessionOpened
    | SessionClosed
    | Started(agent: Agent)
    | Spent(usd: real)
    | AnnotationsRead(annotations: Option<map<string, string>>)
    | TesterSaid(steady: bool)
    | SecuritySaid(criticalOrHigh: bool)
    | InjectionEnded(end: InjectionEnd, drive: DriveEnd)
    | Tagged(active: bool)
    | Filed(agent: Agent)
    | Hooked(stage: PluginHost.Stage)
    | Judged

  /** What the agents would answer: the annotations; which of them raise, and whether the injection
      then signals a tripped guard; whether the baselines are steady and secure, the injection
      succeeds, an agent sees a regression, and any hypothesis is left once the suppression rules are
      applied, if these can be read; and what their calls cost, and a cut injection. */
  datatype Answers = Answers(annotations: Option<map<string, string>>, raises: set<Agent>, trips: bool, steady: bool,
      secure: bool,
                             success: bool, regressed: bool, rulesRaise: bool, active: bool,
                             cost: Agent -> real, cutCost: real)

  /** What is fixed for a run: the plan, the control flags on the row when it starts, the spend an
      attached harness already carries, whether the chaos agent can clean up on request, the plugin,
      and what the agents would answer. */
  datatype Setup = Setup(plan: Plan, flags: Store.Flags, base: Option<real>, canCleanUp: bool,
                         plugin: Option<PluginHost.Plugin>, says: Answers)

  /** The state in memory and the last one persisted, pauses aside. */
  datatype Progress = Progress(phase: ExperimentState, paused: bool, saved: Option<ExperimentState>)

  /** The flags on the row, what the operator wrote, the latest poll since the last agent call, the
      abort it found, and whether PAUSED has been saved since polls ask for a pause. */
  datatype Signals = Signals(flags: Store.Flags, wrote: seq<Store.Write>, polled: Option<Store.Flags>,
                             killed: Option<AbortReason>, marked: bool)

  /** An agent call that has been made, and whether it was an injection that was cut off. */
  datatype Made = Made(agent: Agent, cut: bool)

  /** What agents have spent, the latest budget check since the last agent call, whether that call has
      been paid for, and all the calls. */
  datatype Money = Money(spent: real, checked: Option<(real, real)>, paid: bool, made: seq<Made>)

  /** The plugin's hooks in order, and whether its verdict, if any, is on record. */
  datatype Course = Course(hooks: seq<PluginHost.Stage>, judged: bool)

  datatype Gates = Gates(opened_: bool, closed: bool, annotated: bool, steady: bool, secure: bool)

  datatype Attack = Attack(injection: Option<InjectionEnd>, drive: DriveEnd, owesCleanup: bool)

  const NO_ATTACK := Attack(None, Returned, false)

  /** What the events so far amount to; `filed` are the agents whose answers are on record, `cleared`
      says that the run has cleared the operator's flags. */
  datatype View = View(at: Progress, signals: Signals, money: Money, gates: Gates, last: Option<Agent>, attack: Attack,
                       tagged: Option<bool>, filed: set<Agent>, cleared: bool, course: Course)

  function Start(s: Setup): View {
    View(Progress(INITIALIZING, false, None), Signals(s.flags, [], None, None, false), Money(0.0, None, true, []),
         Gates(false, false, false, false, false), None, NO_ATTACK, None, {}, false, Course([], false))
  }

  function Next(s: Setup, v: View, e: Event): View {
    match e
    case Entered(state) => WithState(v, state)
    case Saved(state, _, _) => WithSaved(v, state)
    case Wrote(w) => v.(signals := v.signals.(
      flags := Store.Applied(v.signals.flags, w), wrote := v.signals.wrote + [w]))
    case Cleared => WithCleared(v)
    case Polled(f) => WithPoll(v, f)
    case BudgetChecked(spent, elapsed) => WithCheck(v, (spent, elapsed))
    case SessionOpened => v.(gates := v.gates.(opened_ := true))
    case SessionClosed => v.(gates := v.gates.(closed := true))
    case Started(agent) => AfterCall(v, agent)
    case Spent(usd) => WithSpend(v, usd)
    case AnnotationsRead(a) => v.(gates := v.gates.(annotated := Safety.Annotated(a)))
    case TesterSaid(steady) => v.(gates := v.gates.(steady := steady))
    case SecuritySaid(bad) => v.(gates := v.gates.(secure := !bad))
    case InjectionEnded(end, drive) => v.(attack := Attack(Some(end), drive, drive.Tripped? && s.canCleanUp),
      money := v.money.(made := v.money.made + [Made(Execute, end.Cut?)]))
    case Tagged(active) => v.(tagged := Some(active))
    case Filed(agent) => WithReport(v, agent)
    case Hooked(stage) => v.(course := v.course.(hooks := v.course.hooks + [stage]))
    case Judged => v.(course := v.course.(judged := true))
  }

  /** An agent call makes whatever was polled or checked before it stale. */
  function AfterCall(v: View, agent: Agent): View {
    v.(signals := v.signals.(polled := None), last := Some(agent),
       money := v.money.(checked := None, paid := false,
                         made := if agent == Execute then v.money.made else v.money.made + [Made(agent, false)]),
       attack := v.attack.(owesCleanup := v.attack.owesCleanup && agent != Cleanup))
  }

  /** The operator has written, as the other view shows. */
  function WithWrites(v: View, w: View): View {
    v.(signals := v.signals.(flags := w.signals.flags, wrote := w.signals.wrote))
  }

  function WithSpend(v: View, usd: real): View {
    v.(money := v.money.(spent := v.money.spent + usd, paid := true))
  }

  function WithCleared(v: View): View {
    v.(signals := v.signals.(flags := Store.NO_FLAGS), cleared := true)
  }

  function WithState(v: View, state: ExperimentState): View {
    v.(at := if state == PAUSED then v.at.(paused := true) else v.at.(phase := state, paused := false))
  }

  function WithSaved(v: View, state: ExperimentState): View {
    if state == PAUSED then v.(signals := v.signals.(marked := true)) else v.(at := v.at.(saved := Some(state)))
  }

  function WithPoll(v: View, f: Store.Flags): View {
    v.(signals := v.signals.(polled := Some(f), marked := v.signals.marked && f.pause,
                             killed := if f.abort then Some(f.reason.GetOr(UserKill)) else None))
  }

  function WithCheck(v: View, reading: (real, real)): View {
    v.(money := v.money.(checked := Some(reading)))
  }

  /** A diagnosis that goes on record has not been tagged yet. */
  function WithReport(v: View, agent: Agent): View {
    v.(filed := v.filed + {agent}, tagged := if agent == Diagnose then None else v.tagged)
  }

  /** Nothing but the state, the row's flags and polls has changed. */
  predicate SameButSignals(v: View, w: View) {
    w == v.(at := w.at, signals := w.signals, cleared := w.cleared)
      && w.signals == v.signals.(flags := w.signals.flags, wrote := w.signals.wrote)
  }

  /** Neither injection nor hooks have moved on. */
  predicate SameCourse(v: View, w: View) {
    w.attack == v.attack && w.course == v.course
  }

  /** The same, except that the budget may have been checked too. */
  predicate SameButChecks(v: View, w: View) {
    w == v.(at := w.at, signals := w.signals, money := w.money, cleared := w.cleared)
  }

  function Fold(s: Setup, trace: seq<Event>): View {
    if trace == [] then Start(s) else Next(s, Fold(s, trace[..|trace| - 1]), trace[|trace| - 1])
  }

  // ----- what is allowed -------------------------------------------------------------------------

  predicate Terminal(state: ExperimentState) {
    state == RECORDED || state == ABORTED
  }

  /** States the record passes through between two saves. */
  predicate Transient(state: ExperimentState) {
    state == BASELINE_FAIL || state == INJECT_FAILED || state == STEADY || state == FIX_PROPOSED
      || state == FIX_DECLINED
  }

  /** The documented state machine; a declined fix is entered from DIAGNOSED. */
  predicate Moves(from: ExperimentState, to: ExperimentState) {
    match to
    case BASELINE => from == INITIALIZING
    case BASELINE_OK => from == BASELINE
    case BASELINE_FAIL => from == BASELINE
    case INJECT => from == BASELINE_OK
    case INJECTED => from == INJECT
    case INJECT_FAILED => from == INJECT
    case VERIFY => from == INJECTED
    case STEADY => from == VERIFY
    case REGRESSED => from == VERIFY
    case DIAGNOSE => from == REGRESSED
    case DIAGNOSED => from == DIAGNOSE
    case PROPOSE_FIX => from == DIAGNOSED
    case FIX_DECLINED => from == DIAGNOSED
    case FIX_PROPOSED => from == PROPOSE_FIX
    case RECORDED => (from == STEADY || from == REGRESSED || from == FIX_PROPOSED || from == FIX_DECLINED)
    case ABORTED => !Terminal(from)
    case _ => false
  }

  /** The states between which the operator's flags are polled. */
  predicate PollPoint(state: ExperimentState) {
    state == INITIALIZING || state == BASELINE_OK || state == INJECTED || state == VERIFY || state == DIAGNOSED
  }

  /** Neighbours in the sequence of persisted states, pauses aside: the state machine without the
      states that are only passed through. */
  predicate Persists(from: Option<ExperimentState>, to: ExperimentState) {
    if from.None? then to == INITIALIZING
    else
      match to
      case INITIALIZING => from.value == INITIALIZING
      case ABORTED => from.value != RECORDED && from.value != REGRESSED
      case RECORDED =>
        var f := from.value;
        f == RECORDED || f == VERIFY || f == REGRESSED || f == DIAGNOSED || f == PROPOSE_FIX
      case _ => Moves(from.value, to) && !Transient(to)
  }

  predicate Clear(v: View) {
    v.signals.polled.Some? && !v.signals.polled.value.abort && !v.signals.polled.value.pause
  }

  /** Since the last agent call the budget was found within its caps and the operator's flags clear. */
  predicate Ready(s: Setup, v: View) {
    Clear(v) && v.money.checked.Some? && Safety.WithinBudget(
      s.plan.budget, v.money.checked.value.0, v.money.checked.value.1)
  }

  /** The budget was last found exceeded. */
  predicate Overspent(s: Setup, v: View) {
    v.money.checked.Some? && !Safety.WithinBudget(s.plan.budget, v.money.checked.value.0, v.money.checked.value.1)
  }

  ghost predicate PlanAllowed(plan: Plan) {
    Safety.ClusterAllowed(plan.safety) && Safety.RadiusAllowed(plan.faults, plan.safety)
  }

  /** What the last agent call costs, once it is known how it ended. */
  function Due(s: Setup, v: View): real {
    match v.last
    case None => 0.0
    case Some(agent) => if agent == Execute && v.attack.injection == Some(Cut) then s.says.cutCost
      else s.says.cost(agent)
  }

  /** With a harness, every call is paid for before anything else happens. */
  predicate AllPaid(s: Setup, v: View) {
    s.base.Some? ==> v.money.paid
  }

  /** The latest poll since the last agent call asks for a pause. */
  predicate Pausing(v: View) {
    AsksForPause(v.signals.polled)
  }

  predicate AsksForPause(polled: Option<Store.Flags>) {
    polled.Some? && polled.value.pause && !polled.value.abort
  }

  /** Evidence of a regression is gathered before budget and flags are looked at. */
  predicate AtGate(v: View) {
    PollPoint(v.at.phase) && (v.at.phase == VERIFY ==> PluginHost.CollectDiagnostics in v.course.hooks)
  }

  /** The flags are polled behind the budget check, where there is one, and again only once the pause
      that was seen is on disk. */
  predicate CanPoll(s: Setup, v: View) {
    && AtGate(v) && v.signals.killed.None? && !Overspent(s, v) && (Pausing(v) ==> v.signals.marked)
    && (v.at.phase == BASELINE_OK || v.at.phase == VERIFY || v.at.phase == DIAGNOSED ==> v.money.checked.Some?)
  }

  /** The last agent's answer has not gone on record yet. */
  predicate Unfiled(s: Setup, v: View) {
    Pending(s.says.raises, v.last, v.attack, v.filed)
  }

  predicate Pending(raises: set<Agent>, last: Option<Agent>, attack: Attack, filed: set<Agent>) {
    match last
    case None => false
    case Some(ReadAnnotations) => false
    case Some(Cleanup) => false
    case Some(Execute) =>
      && attack.injection.Some? && attack.injection.value.Completed? && attack.drive.Returned?
      && Execute !in filed
    case Some(agent) => agent !in raises && agent !in filed
  }

  /** The hooks of a run come in one order, each at its own point. */
  predicate CanHook(s: Setup, v: View, stage: PluginHost.Stage) {
    && v.gates.opened_ && !v.gates.closed && v.signals.killed.None? && !Overspent(s, v) && AllPaid(s, v)
    && !Unfiled(s, v) && !Pausing(v)
    && match stage
       case CaptureBaseline => v.at.phase == BASELINE && BASELINES <= v.filed && v.course.hooks == []
       case RunTest =>
         && v.at == Progress(INJECT, false, Some(INJECT)) && Ready(s, v) && v.attack.injection.None?
         && v.course.hooks == CAPTURED
       case VerifyTest => v.at.phase == VERIFY && VERIFICATIONS <= v.filed && v.course.hooks == DRIVEN
       case CollectDiagnostics =>
         || (v.at.phase == INJECT_FAILED && v.attack.drive.Tripped? && !v.attack.owesCleanup
            && v.course.hooks == DRIVEN)
         || (v.at.phase == VERIFY && v.course.judged && Regressed(s) && v.course.hooks == VERIFIED)
       case _ => false
  }

  const CAPTURED := [PluginHost.CaptureBaseline]
  const DRIVEN := CAPTURED + [PluginHost.RunTest]
  const VERIFIED := DRIVEN + [PluginHost.VerifyTest]
  const DIAGNOSED_BY_PLUGIN := VERIFIED + [PluginHost.CollectDiagnostics]

  /** Before an agent is called: the session is open, nobody has asked to abort, and the state has
      been persisted (a cleanup excepted). */
  predicate CanCall(s: Setup, v: View, agent: Agent) {
    && v.gates.opened_ && !v.gates.closed && v.signals.killed.None? && !v.at.paused && !Overspent(s, v) && AllPaid(s, v)
    && (agent != Cleanup ==> v.at.saved == Some(v.at.phase)) && !Unfiled(s, v) && !Pausing(v)
    && match agent
       case ReadAnnotations => v.at.phase == INITIALIZING && s.plan.safety.requireAnnotation
       case TesterBaseline => v.at.phase == BASELINE && Clear(v)
         && (s.plan.safety.requireAnnotation ==> v.gates.annotated)
       case SecurityBaseline => v.at.phase == BASELINE && v.last == Some(TesterBaseline)
       case Execute =>
         && v.at.phase == INJECT && Ready(s, v) && v.gates.steady && v.gates.secure
         && (s.plan.safety.requireAnnotation ==> v.gates.annotated) && v.attack.injection.None?
         && v.course.hooks == DRIVEN && !PluginHost.DriveOf(s.plugin).guard.FactoryRaises?
       case Cleanup => v.at.phase == INJECT_FAILED && v.attack.owesCleanup && v.course.hooks == DRIVEN
       case TesterVerify => v.at.phase == VERIFY && Clear(v)
       case SecurityVerify => v.at.phase == VERIFY && v.last == Some(TesterVerify)
       case Diagnose => v.at.phase == DIAGNOSE && Ready(s, v)
       case ProposeFix => v.at.phase == PROPOSE_FIX && Ready(s, v) && v.tagged == Some(true)
  }

  // ----- what the answers decide -------------------------------------------------------------------

  const BASELINES := {TesterBaseline, SecurityBaseline}
  const VERIFICATIONS := {TesterVerify, SecurityVerify}

  predicate Healthy(s: Setup) {
    s.says.steady && s.says.secure
  }

  /** An agent sees a regression, or the plugin does. */
  predicate Regressed(s: Setup) {
    s.says.regressed || PluginHost.VerdictOf(s.plugin) == Some(false)
  }

  /** The injection could not be started, broke, was cut off, did not succeed, or was not all that ran. */
  predicate InjectionFailed(s: Setup, v: View) {
    match v.attack.injection
    case None => PluginHost.DriveOf(s.plugin).guard.FactoryRaises?
    case Some(end) => !(end == Completed(true) && v.attack.drive.Returned?)
  }

  predicate DiagnosticsRaised(s: Setup, v: View) {
    PluginHost.CollectDiagnostics in v.course.hooks && PluginHost.HookRaises(s.plugin, PluginHost.CollectDiagnostics)
  }

  /** Something raised that is not handled where it is raised. */
  predicate Broken(s: Setup, v: View) {
    && v.gates.opened_
    && match v.last
       case None => PluginHost.SetUpRaises(s.plugin)
       case Some(SecurityBaseline) =>
         || SecurityBaseline in s.says.raises
         || (PluginHost.CaptureBaseline in v.course.hooks
            && PluginHost.HookRaises(s.plugin, PluginHost.CaptureBaseline))
         || (PluginHost.RunTest in v.course.hooks && PluginHost.DriveOf(s.plugin).guard.FactoryRaises?)
       case Some(Execute) =>
         InjectionFailed(s, v) && (v.attack.drive.Tripped? ==> DiagnosticsRaised(s, v))
       case Some(Cleanup) => DiagnosticsRaised(s, v)
       case Some(SecurityVerify) =>
         || SecurityVerify in s.says.raises
         || (PluginHost.VerifyTest in v.course.hooks && PluginHost.HookRaises(s.plugin, PluginHost.VerifyTest))
         || (Regressed(s) && DiagnosticsRaised(s, v))
       case Some(Diagnose) => Diagnose in s.says.raises || s.says.rulesRaise
       case Some(ReadAnnotations) => false
       case Some(agent) => agent in s.says.raises
  }

  /** What the loop itself may abort a run for. */
  ghost predicate Explained(s: Setup, v: View, reason: AbortReason) {
    match reason
    case ClusterDenied =>
      || !Safety.ClusterAllowed(s.plan.safety)
      || (v.gates.opened_ && s.plan.safety.requireAnnotation && !Safety.Annotated(s.says.annotations))
    case BlastRadiusViolation => Safety.ClusterAllowed(s.plan.safety)
      && !Safety.RadiusAllowed(s.plan.faults, s.plan.safety)
    case BaselineUnhealthy => BASELINES <= v.filed && !Healthy(s)
    case BudgetExceeded => Overspent(s, v)
    case SloBreach => v.attack.drive.Tripped? && PluginHost.CollectDiagnostics in v.course.hooks
    case AgentFailure => Broken(s, v)
    case _ => false
  }

  /** An abort the operator was seen to request goes first. */
  ghost predicate Justified(s: Setup, v: View, reason: AbortReason) {
    if v.signals.killed.Some? then v.signals.killed.value == reason else Explained(s, v, reason)
  }

  /** What has been reported decides which way the run goes. An abort apart, a state is left only
      when it has been persisted, and not past an exceeded budget. */
  predicate CanEnter(s: Setup, v: View, state: ExperimentState) {
    if state == PAUSED then
      PollPoint(v.at.phase) && Pausing(v) && !Overspent(s, v)
    else
      && Moves(v.at.phase, state) && !Unfiled(s, v) && !Pausing(v)
      && (v.signals.killed.Some? || Overspent(s, v) ==> state == ABORTED) && AllPaid(s, v)
      && (state != ABORTED && !Transient(v.at.phase) ==> v.at.saved == Some(v.at.phase))
      && match state
         case BASELINE => Clear(v) && !PluginHost.SetUpRaises(s.plugin)
         case INJECT => Ready(s, v)
         case VERIFY => Clear(v)
         case BASELINE_OK =>
           && v.gates.steady && v.gates.secure && Healthy(s) && BASELINES <= v.filed
           && v.course.hooks == CAPTURED && !PluginHost.HookRaises(s.plugin, PluginHost.CaptureBaseline)
         case BASELINE_FAIL => BASELINES <= v.filed && !Healthy(s) && v.course.hooks == CAPTURED
         case INJECTED =>
           && v.attack.injection == Some(Completed(true)) && v.attack.drive.Returned? && Execute in v.filed
           && v.course.hooks == DRIVEN
         case INJECT_FAILED => InjectionFailed(s, v) && v.course.hooks == DRIVEN
         case STEADY => VERIFICATIONS <= v.filed && !Regressed(s) && v.course.judged && v.course.hooks == VERIFIED
           && !PluginHost.HookRaises(s.plugin, PluginHost.VerifyTest)
         case REGRESSED =>
           && Ready(s, v) && VERIFICATIONS <= v.filed && Regressed(s) && v.course.judged
           && v.course.hooks == DIAGNOSED_BY_PLUGIN
           && !PluginHost.HookRaises(s.plugin, PluginHost.VerifyTest)
           && !PluginHost.HookRaises(s.plugin, PluginHost.CollectDiagnostics)
         case DIAGNOSE => s.says.regressed
         case DIAGNOSED => Diagnose in v.filed
         case PROPOSE_FIX => Ready(s, v) && v.tagged == Some(true)
         case FIX_DECLINED => Ready(s, v) && v.tagged == Some(false)
         case FIX_PROPOSED => ProposeFix in v.filed
         case RECORDED => v.at.phase == REGRESSED ==> !s.says.regressed
         case ABORTED => !v.attack.owesCleanup
         case _ => true
  }

  ghost predicate CanSave(s: Setup, v: View, state: ExperimentState, reason: Option<AbortReason>, finished: bool) {
    && state == (if v.at.paused then PAUSED else v.at.phase)
    && (if state == PAUSED then PollPoint(v.at.phase) && Pausing(v) && !v.signals.marked
        else Persists(v.at.saved, state))
    && (finished <==> Terminal(state)) && (reason.Some? <==> state == ABORTED)
    && (v.signals.killed.Some? ==> state == ABORTED)
    && (reason.Some? ==> Justified(s, v, reason.value))
  }

  ghost predicate Allowed(s: Setup, v: View, e: Event) {
    match e
    case Entered(state) => CanEnter(s, v, state)
    case Saved(state, reason, finished) => CanSave(s, v, state, reason, finished)
    case Wrote(_) => true
    case Cleared => v.at.saved.Some? && Terminal(v.at.saved.value)
    case Polled(f) => f == v.signals.flags && CanPoll(s, v)
    case BudgetChecked(spent, elapsed) =>
      elapsed >= 0.0 && AtGate(v) && v.signals.killed.None? && !Pausing(v) && !Overspent(s, v) && AllPaid(s, v)
        && spent == (if s.base.Some? then s.base.value + v.money.spent else 0.0)
    case SessionOpened => PlanAllowed(s.plan) && !v.gates.opened_ && v.at.saved == Some(INITIALIZING)
    case SessionClosed => v.gates.opened_ && !v.gates.closed
    case Started(agent) => CanCall(s, v, agent)
    case Spent(usd) =>
      && s.base.Some? && v.last.Some? && !v.money.paid && (v.last == Some(Execute) ==> v.attack.injection.Some?)
      && usd == Due(s, v) && usd >= 0.0
    case AnnotationsRead(a) => v.gates.opened_ && v.at.phase == INITIALIZING && CanRead(s, v, a)
    case TesterSaid(steady) => v.last == Some(TesterBaseline) && v.at.phase == BASELINE && steady == s.says.steady
    case SecuritySaid(bad) => v.last == Some(SecurityBaseline) && v.at.phase == BASELINE && bad == !s.says.secure
    case InjectionEnded(end, drive) =>
      && v.last == Some(Execute) && v.attack.injection.None? && v.at.phase == INJECT && !v.money.paid
      && CanEnd(s, end, drive)
    case Tagged(active) => v.at.phase == DIAGNOSED && Diagnose in v.filed && active == s.says.active
      && !s.says.rulesRaise
    case Filed(agent) => v.last == Some(agent) && agent !in s.says.raises
    case Hooked(stage) => CanHook(s, v, stage)
    case Judged => v.at.phase == VERIFY && v.course.hooks == VERIFIED
  }

  /** Annotations are what the agent reads; without asking it there are none. */
  predicate CanRead(s: Setup, v: View, a: Option<map<string, string>>) {
    a == s.says.annotations && (a.Some? ==> v.last == Some(ReadAnnotations))
  }

  /** The injection ends as its agent has it, unless it is cut off for a reason of the plugin's; and
      whatever the drive passes on comes from one of its tasks. */
  predicate CanEnd(s: Setup, end: InjectionEnd, drive: DriveEnd) {
    && !PluginHost.DriveOf(s.plugin).guard.FactoryRaises?
    && (drive.Returned? ==> end.Completed? && !PluginHost.WorkloadRaises(PluginHost.DriveOf(s.plugin)))
    && (drive.Tripped? ==> PluginHost.DriveTrips(s.plugin) || (end.Broke? && s.says.trips))
    && (drive.Threw? ==> PluginHost.DriveBreaks(s.plugin) || (end.Broke? && !s.says.trips))
    && match end
       case Completed(success) => Execute !in s.says.raises && success == s.says.success
       case Broke => Execute in s.says.raises
       case Cut => true
  }

  /** Every event was allowed when it happened. */
  ghost predicate Safe(s: Setup, trace: seq<Event>) {
    forall k | 0 <= k < |trace| :: Allowed(s, Fold(s, trace[..k]), trace[k])
  }

  lemma Begins(s: Setup)
    ensures Safe(s, []) && Fold(s, []) == Start(s)
  {
  }

  lemma Extends(s: Setup, trace: seq<Event>, e: Event)
    requires Safe(s, trace) && Allowed(s, Fold(s, trace), e)
    ensures Safe(s, trace + [e]) && Fold(s, trace + [e]) == Next(s, Fold(s, trace), e)
  {
    var more := trace + [e];
    assert more[..|more| - 1] == trace;
    forall k | 0 <= k < |more| ensures Allowed(s, Fold(s, more[..k]), more[k]) {
      if k < |trace| {
        assert more[..k] == trace[..k];
      }
    }
  }

  lemma SafePrefix(s: Setup, trace: seq<Event>, k: nat)
    requires Safe(s, trace) && k <= |trace|
    ensures Safe(s, trace[..k])
  {
    forall i | 0 <= i < k ensures Allowed(s, Fold(s, trace[..k][..i]), trace[..k][i]) {
      assert trace[..k][..i] == trace[..i];
    }
  }

  /** What justifies an abort does not depend on where the run is, nor on the flags on the row. */
  lemma JustifiedElsewhere(s: Setup, v: View, w: View, reason: AbortReason)
    requires SameButSignals(v, w) && Justified(s, v, reason)
    ensures Justified(s, w, reason)
  {
  }

  lemma JustifiedWhenClosed(s: Setup, v: View, reason: AbortReason)
    requires Justified(s, v, reason)
    ensures Justified(s, v.(gates := v.gates.(closed := true)), reason)
  {
  }

  lemma KilledGivesReason(s: Setup, v: View, state: ExperimentState, reason: Option<AbortReason>)
    requires CanEnter(s, v, state) && Terminal(state) && (reason.Some? <==> state == ABORTED)
    requires reason.Some? ==> Justified(s, v, reason.value)
    ensures v.signals.killed.Some? ==> reason == v.signals.killed
  {
  }

  lemma TripJustifies(s: Setup, v: View)
    requires v.attack.drive.Tripped? && PluginHost.CollectDiagnostics in v.course.hooks && v.signals.killed.None?
    ensures Justified(s, v, SloBreach)
  {
  }

  lemma BreakageJustifies(s: Setup, v: View)
    requires Broken(s, v) && v.signals.killed.None?
    ensures Explained(s, v, AgentFailure) && Justified(s, v, AgentFailure)
  {
  }

  lemma OverspendJustifies(s: Setup, v: View)
    requires Overspent(s, v) && v.signals.killed.None?
    ensures Justified(s, v, BudgetExceeded)
  {
  }

  /** A pause that is on disk is still asked for, or an abort has been seen. */
  predicate MarkAgrees(v: View) {
    v.signals.marked ==> Pausing(v) || v.signals.killed.Some?
  }

  lemma MarkStep(s: Setup, v: View, e: Event)
    requires Allowed(s, v, e) && MarkAgrees(v)
    ensures MarkAgrees(Next(s, v, e))
  {
  }

  lemma {:induction false} MarkAlwaysAgrees(s: Setup, trace: seq<Event>)
    requires Safe(s, trace)
    ensures MarkAgrees(Fold(s, trace))
  {
    if trace != [] {
      hide Next, Allowed, MarkAgrees;
      var k := |trace| - 1;
      assert Allowed(s, Fold(s, trace[..k]), trace[k]);
      assert forall i | 0 <= i < k :: trace[..k][i] == trace[i] && trace[..k][..i] == trace[..i];
      MarkAlwaysAgrees(s, trace[..k]);
      MarkStep(s, Fold(s, trace[..k]), trace[k]);
    }
  }

  // ----- keeping the record ---------------------------------------------------------------------------

  /** The trace of the run so far and its view. */
  class Recorder {
    ghost var setup: Setup
    ghost var trace: seq<Event>
    ghost var view: View

    ghost predicate Valid()
      reads this
    {
      Safe(setup, trace) && view == Fold(setup, trace)
    }

    ghost constructor (s: Setup)
      ensures Valid() && setup == s && view == Start(s)
    {
      Begins(s);
      setup, trace, view := s, [], Start(s);
    }

    ghost method Emit(e: Event)
      requires Valid() && Allowed(setup, view, e)
      modifies this`trace, this`view
      ensures Valid() && view == Next(setup, old(view), e)
    {
      hide Safe, Fold, Next, Allowed;
      Extends(setup, trace, e);
      trace := trace + [e];
      view := Next(setup, view, e);
    }

    ghost method Enter(state: ExperimentState)
      requires Valid() && CanEnter(setup, view, state)
      modifies this`trace, this`view
      ensures Valid() && view == WithState(old(view), state)
    {
      hide Safe, Fold, CanEnter;
      Emit(Entered(state));
    }

    ghost method Save(state: ExperimentState, reason: Option<AbortReason>, finished: bool)
      requires Valid() && CanSave(setup, view, state, reason, finished)
      modifies this`trace, this`view
      ensures Valid() && view == WithSaved(old(view), state)
    {
      hide Safe, Fold, CanSave;
      Emit(Saved(state, reason, finished));
    }

    ghost method Write(w: Store.Write)
      requires Valid()
      modifies this`trace, this`view
      ensures Valid() && view == Next(setup, old(view), Wrote(w))
    {
      hide Safe, Fold;
      Emit(Wrote(w));
    }

    ghost method Clear()
      requires Valid() && view.at.saved.Some? && Terminal(view.at.saved.value)
      modifies this`trace, this`view
      ensures Valid() && view == WithCleared(old(view))
    {
      hide Safe, Fold;
      Emit(Cleared);
    }

    ghost method Poll(f: Store.Flags)
      requires Valid() && f == view.signals.flags && CanPoll(setup, view)
      modifies this`trace, this`view
      ensures Valid() && view == WithPoll(old(view), f)
    {
      hide Safe, Fold;
      Emit(Polled(f));
    }

    ghost method CheckBudget(usd: real, elapsed: real)
      requires Valid() && AtGate(view) && view.signals.killed.None? && !Pausing(view) && !Overspent(setup, view)
      requires AllPaid(setup, view)
      requires elapsed >= 0.0 && usd == if setup.base.Some? then setup.base.value + view.money.spent else 0.0
      modifies this`trace, this`view
      ensures Valid() && view == WithCheck(old(view), (usd, elapsed))
    {
      hide Safe, Fold;
      Emit(BudgetChecked(usd, elapsed));
    }

    ghost method Open()
      requires Valid() && PlanAllowed(setup.plan) && !view.gates.opened_ && view.at.saved == Some(INITIALIZING)
      modifies this`trace, this`view
      ensures Valid() && view == old(view).(gates := old(view).gates.(opened_ := true))
    {
      hide Safe, Fold, PlanAllowed;
      Emit(SessionOpened);
    }

    ghost method Close()
      requires Valid() && view.gates.opened_ && !view.gates.closed
      modifies this`trace, this`view
      ensures Valid() && view == old(view).(gates := old(view).gates.(closed := true))
    {
      hide Safe, Fold;
      Emit(SessionClosed);
    }

    ghost method Call(agent: Agent)
      requires Valid() && CanCall(setup, view, agent)
      modifies this`trace, this`view
      ensures Valid() && view == AfterCall(old(view), agent) && !Pausing(view)
      ensures agent in setup.says.raises || agent.ReadAnnotations? || agent.Cleanup? ==> !Unfiled(setup, view)
    {
      hide Safe, Fold;
      Emit(Started(agent));
    }

    ghost method Spend(usd: real)
      requires Valid() && setup.base.Some? && view.last.Some? && !view.money.paid && usd == Due(setup, view)
          && usd >= 0.0
      requires view.last == Some(Execute) ==> view.attack.injection.Some?
      modifies this`trace, this`view
      ensures Valid() && view == WithSpend(old(view), usd)
    {
      hide Safe, Fold;
      Emit(Spent(usd));
    }

    ghost method ReadAnnotations(a: Option<map<string, string>>)
      requires Valid() && view.gates.opened_ && view.at.phase == INITIALIZING && CanRead(setup, view, a)
      modifies this`trace, this`view
      ensures Valid() && view == old(view).(gates := old(view).gates.(annotated := Safety.Annotated(a)))
    {
      hide Safe, Fold;
      Emit(AnnotationsRead(a));
    }

    ghost method HearTester(steady: bool)
      requires Valid() && view.last == Some(TesterBaseline) && view.at.phase == BASELINE && steady == setup.says.steady
      modifies this`trace, this`view
      ensures Valid() && view == old(view).(gates := old(view).gates.(steady := steady))
    {
      hide Safe, Fold;
      Emit(TesterSaid(steady));
    }

    ghost method HearSecurity(criticalOrHigh: bool)
      requires Valid() && view.last == Some(SecurityBaseline) && view.at.phase == BASELINE
          && criticalOrHigh == !setup.says.secure
      modifies this`trace, this`view
      ensures Valid() && view == old(view).(gates := old(view).gates.(secure := !criticalOrHigh))
    {
      hide Safe, Fold;
      Emit(SecuritySaid(criticalOrHigh));
    }

    ghost method EndInjection(end: InjectionEnd, drive: DriveEnd)
      requires Valid() && view.last == Some(Execute) && view.attack.injection.None? && view.at.phase == INJECT
      requires !view.money.paid && CanEnd(setup, end, drive)
      modifies this`trace, this`view
      ensures Valid() && view == old(view).(attack := Attack(Some(end), drive, drive.Tripped? && setup.canCleanUp),
        money := old(view.money).(made := old(view.money.made) + [Made(Execute, end.Cut?)]))
      ensures !drive.Returned? ==> !Unfiled(setup, view)
    {
      hide Safe, Fold;
      Emit(InjectionEnded(end, drive));
    }

    ghost method Tag(active: bool)
      requires Valid() && view.at.phase == DIAGNOSED && Diagnose in view.filed
      requires active == setup.says.active && !setup.says.rulesRaise
      modifies this`trace, this`view
      ensures Valid() && view == old(view).(tagged := Some(active))
    {
      hide Safe, Fold;
      Emit(Tagged(active));
    }

    ghost method Hook(stage: PluginHost.Stage)
      requires Valid() && CanHook(setup, view, stage)
      modifies this`trace, this`view
      ensures Valid() && view == old(view).(course := old(view.course).(hooks := old(view.course.hooks) + [stage]))
    {
      hide Safe, Fold, CanHook;
      Emit(Hooked(stage));
    }

    ghost method Judge()
      requires Valid() && view.at.phase == VERIFY && view.course.hooks == VERIFIED
      modifies this`trace, this`view
      ensures Valid() && view == old(view).(course := old(view.course).(judged := true))
    {
      hide Safe, Fold;
      Emit(Judged);
    }

    ghost method File(agent: Agent)
      requires Valid() && view.last == Some(agent) && agent !in setup.says.raises
      modifies this`trace, this`view
      ensures Valid() && view == WithReport(old(view), agent)
    {
      hide Safe, Fold;
      Emit(Filed(agent));
    }
  }
}

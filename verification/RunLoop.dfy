/** The orchestrator's run loop. Agents, plugin, clock and operator are black boxes: each agent
    call answers anything or raises, and operator writes land before any of the loop's own store
    calls. The loop leaves a trace of events behind, every one of which is allowed. */
module RunLoop {
  import opened Contracts
  import opened Prelude
  import opened RunTrace
  import Harness
  import PluginHost
  import Safety
  import Store
  import Suppression

  // ----- collaborators -----------------------------------------------------------------------------

  /** An agent call: what it spends, and what it answers. */
  datatype Scripted<+T> = Scripted(work: seq<Harness.Action>, answer: Answer<T>)

  datatype Diagnosis = Diagnosis(hypotheses: seq<Suppression.Hypothesis>, suppressed: seq<string>)

  /** Every agent is called at most once per method and run. A chaos agent may lack the annotation
      getter and the cleanup; `cut` is what its injection spends when it is cut off, and `trips` whether
      an injection that raises does so with the signal of a tripped guard. */
  datatype Agents = Agents(
    annotations: Option<Scripted<Option<map<string, string>>>>,
    testerBaseline: Scripted<TesterReport>,
    securityBaseline: Scripted<SecurityReport>,
    execute: Scripted<ChaosTimeline>,
    cut: seq<Harness.Action>,
    trips: bool,
    cleanup: Option<Scripted<bool>>,
    testerVerify: Scripted<TesterReport>,
    securityVerify: Scripted<SecurityReport>,
    diagnose: Scripted<Diagnosis>,
    proposeFix: Scripted<string>)

  type Seconds = x: real | x >= 0.0

  /** Everything else the loop depends on: the operator's writes in batches, one before each store
      call; the seconds elapsed at each budget check; the suppression rules, unless reading them
      raises; and the environment the rules are evaluated in. */
  datatype World = World(operator: seq<seq<Store.Write>>, elapsed: nat -> Seconds,
                         rules: Answer<seq<Suppression.Rule>>, env: Suppression.Env)

  /** What the agents and the plugin have reported. */
  datatype Reports = Reports(
    testerBaseline: Option<TesterReport>, securityBaseline: Option<SecurityReport>, timeline: Option<ChaosTimeline>,
    testerVerify: Option<TesterReport>, securityVerify: Option<SecurityReport>, verdict: Option<bool>,
    diagnosis: Option<Diagnosis>, fix: Option<string>)

  datatype Record = Record(state: ExperimentState, finished: bool, abortReason: Option<AbortReason>, spend: real,
                           invocations: seq<Harness.Invocation>, pluginRecords: seq<PluginHost.StageResult>,
                             reports: Reports)

  const NEW_RECORD := Record(INITIALIZING, false, None, 0.0, [], [],
    Reports(None, None, None, None, None, None, None, None))

  /** How a part of the run body ends: the run goes on, has been concluded, or an exception escapes. */
  datatype Step = Continue | Concluded | Escaped

  // ----- the operator's signals ahead ----------------------------------------------------------------

  function EffectAll(f: Store.Flags, batches: seq<seq<Store.Write>>): Store.Flags
    decreases |batches|
  {
    if batches == [] then f else EffectAll(Store.Effect(f, batches[0]), batches[1..])
  }

  /** Once the operator has nothing more to say, the run is not left paused. */
  predicate Released(f: Store.Flags, batches: seq<seq<Store.Write>>) {
    var last := EffectAll(f, batches);
    last.abort || !last.pause
  }

  predicate Matches<T(==)>(filed: bool, report: Option<T>, answer: Answer<T>) {
    (filed <==> report.Some?) && (report.Some? ==> answer == Answered(report.value))
  }

  const NO_ANSWERS := Answers(None, {}, false, false, false, false, false, false, false, _ => 0.0, 0.0)

  class ExperimentRunner {
    const agents: Agents
    const world: World
    const plugin: Option<PluginHost.Plugin>
    const store: Store.ExperimentStore<Record>
    const harness: Harness.Harness?
    var plan: Plan
    var record: Record
    var session: PluginHost.PluginSession?
    /** Store calls and budget checks made so far; they index the world's scripts. */
    var calls: nat
    var checks: nat
    ghost var log: Recorder
    /** The invocations an attached harness carried when the run began. */
    ghost var carried: seq<Harness.Invocation>

    constructor (agents: Agents, world: World, plugin: Option<PluginHost.Plugin>, plan: Plan,
                 store: Store.ExperimentStore<Record>, harness: Harness.Harness?)
      ensures this.agents == agents && this.world == world && this.plugin == plugin && this.plan == plan
      ensures this.store == store && this.harness == harness && calls == 0 && session == null
    {
      this.agents, this.world, this.plugin, this.plan, this.store, this.harness := agents, world, plugin, plan, store,
        harness;
      record, session, calls, checks, carried := NEW_RECORD, null, 0, 0, [];
      log := new Recorder(Setup(plan, Store.NO_FLAGS, None, false, plugin, NO_ANSWERS));
    }

    ghost function Ledger(): set<object> {
      if harness == null then {} else {harness}
    }

    function Id(): string
      reads this`plan
    {
      plan.experimentId
    }

    predicate Raises(agent: Agent) {
      match agent
      case ReadAnnotations => agents.annotations.Some? && agents.annotations.value.answer.Raised?
      case TesterBaseline => agents.testerBaseline.answer.Raised?
      case SecurityBaseline => agents.securityBaseline.answer.Raised?
      case Execute => agents.execute.answer.Raised?
      case Cleanup => agents.cleanup.Some? && agents.cleanup.value.answer.Raised?
      case TesterVerify => agents.testerVerify.answer.Raised?
      case SecurityVerify => agents.securityVerify.answer.Raised?
      case Diagnose => agents.diagnose.answer.Raised?
      case ProposeFix => agents.proposeFix.answer.Raised?
    }

    /** What an agent's call does under the harness. */
    function Work(agent: Agent): seq<Harness.Action> {
      match agent
      case ReadAnnotations => if agents.annotations.Some? then agents.annotations.value.work else []
      case TesterBaseline => agents.testerBaseline.work
      case SecurityBaseline => agents.securityBaseline.work
      case Execute => agents.execute.work
      case Cleanup => if agents.cleanup.Some? then agents.cleanup.value.work else []
      case TesterVerify => agents.testerVerify.work
      case SecurityVerify => agents.securityVerify.work
      case Diagnose => agents.diagnose.work
      case ProposeFix => agents.proposeFix.work
    }

    /** A call as the harness sees it, under the agent's name and the coroutine's. */
    function ActionOf(m: Made): Harness.Action {
      var raises := m.cut || Raises(m.agent);
      match m.agent
      case ReadAnnotations => Harness.Call("chaos", "get_namespace_annotations", Work(m.agent), raises)
      case TesterBaseline => Harness.Call("tester", "baseline", Work(m.agent), raises)
      case SecurityBaseline => Harness.Call("security", "baseline", Work(m.agent), raises)
      case Execute => Harness.Call("chaos", "execute", if m.cut then agents.cut else Work(m.agent), raises)
      case Cleanup => Harness.Call("chaos", "cleanup", Work(m.agent), raises)
      case TesterVerify => Harness.Call("tester", "verify", Work(m.agent), raises)
      case SecurityVerify => Harness.Call("security", "verify", Work(m.agent), raises)
      case Diagnose => Harness.Call("diagnostician", "diagnose", Work(m.agent), raises)
      case ProposeFix => Harness.Call("fixer", "propose_fix", Work(m.agent), raises)
    }

    ghost function ActionsOf(made: seq<Made>): (actions: seq<Harness.Action>)
      ensures |actions| == |made|
    {
      seq(|made|, i requires 0 <= i < |made| => ActionOf(made[i]))
    }

    lemma ActionsMore(made: seq<Made>, m: Made)
      ensures Harness.LogAll(ActionsOf(made + [m])) == Harness.LogAll(ActionsOf(made)) + Harness.Log(ActionOf(m))
    {
      Harness.LogAllMore(ActionsOf(made), ActionOf(m));
      assert ActionsOf(made + [m]) == ActionsOf(made) + [ActionOf(m)];
    }

    lemma SaysCosts(agent: Agent)
      ensures Says().cost(agent) == Harness.CostOf(Work(agent)) && Says().cutCost == Harness.CostOf(agents.cut)
    {
    }

    /** What the answers come to. */
    ghost function Says(): Answers {
      Answers(
        if agents.annotations.Some? && !Raises(ReadAnnotations) then agents.annotations.value.answer.value else None,
        (set agent: Agent | Raises(agent)),
        agents.trips,
        !Raises(TesterBaseline) && agents.testerBaseline.answer.value.steady,
        !Raises(SecurityBaseline) && !agents.securityBaseline.answer.value.criticalOrHigh,
        !Raises(Execute) && agents.execute.answer.value.success,
        !Raises(TesterVerify) && !Raises(SecurityVerify)
          && SeesRegression(agents.testerVerify.answer.value, agents.securityVerify.answer.value),
        world.rules.Raised?,
        !Raises(Diagnose) && world.rules.Answered? && Survives(agents.diagnose.answer.value),
        agent => Harness.CostOf(Work(agent)), Harness.CostOf(agents.cut))
    }

    predicate SeesRegression(tester: TesterReport, security: SecurityReport) {
      !tester.steady || security.criticalOrHigh || security.drifted
    }

    /** Some hypothesis has a fingerprint that is neither suppressed beforehand nor tagged by a rule. */
    ghost predicate Survives(d: Diagnosis)
      requires world.rules.Answered?
    {
      exists h | h in d.hypotheses ::
        var fp := Suppression.Fingerprint(h, world.env);
        fp !in d.suppressed && !Suppression.Tagged(fp, d.hypotheses, world.rules.value, world.env)
    }

    /** The diagnosis as the rules leave it: every hypothesis stays, muted ones are tagged. */
    ghost predicate IsTagged(d: Diagnosis) {
      && agents.diagnose.answer.Answered? && world.rules.Answered?
      && d.hypotheses == agents.diagnose.answer.value.hypotheses
      && forall fp :: fp in d.suppressed <==>
           fp in agents.diagnose.answer.value.suppressed
             || Suppression.Tagged(fp, d.hypotheses, world.rules.value, world.env)
    }

    lemma RulesWereRead(d: Diagnosis)
      requires IsTagged(d)
      ensures world.rules.Answered?
    {
    }

    lemma TaggedDecides(d: Diagnosis)
      requires IsTagged(d)
      ensures Suppression.Active(d.hypotheses, d.suppressed, world.env) != [] <==> Says().active
    {
      Suppression.SomeActive(d.hypotheses, d.suppressed, world.env);
    }

    /** The reports on record are those of the agents they are filed under, and their answers; a
        diagnosis may have been tagged. */
    ghost predicate Genuine(r: Reports, filed: set<Agent>, tagged: Option<bool>, judged: bool) {
      && Matches(TesterBaseline in filed, r.testerBaseline, agents.testerBaseline.answer)
      && Matches(SecurityBaseline in filed, r.securityBaseline, agents.securityBaseline.answer)
      && Matches(Execute in filed, r.timeline, agents.execute.answer)
      && Matches(TesterVerify in filed, r.testerVerify, agents.testerVerify.answer)
      && Matches(SecurityVerify in filed, r.securityVerify, agents.securityVerify.answer)
      && Matches(ProposeFix in filed, r.fix, agents.proposeFix.answer)
      && (Diagnose in filed <==> r.diagnosis.Some?)
      && (r.diagnosis.Some? ==>
        IsTagged(r.diagnosis.value) || (tagged.None? && agents.diagnose.answer == Answered(r.diagnosis.value)))
      && (judged || r.verdict.Some? ==> r.verdict == PluginHost.VerdictOf(plugin))
    }

    /** The agent's answer, put on record. */
    predicate Adds(agent: Agent, r: Reports, q: Reports) {
      !Raises(agent) &&
      match agent
      case TesterBaseline => q == r.(testerBaseline := Some(agents.testerBaseline.answer.value))
      case SecurityBaseline => q == r.(securityBaseline := Some(agents.securityBaseline.answer.value))
      case Execute => q == r.(timeline := Some(agents.execute.answer.value))
      case TesterVerify => q == r.(testerVerify := Some(agents.testerVerify.answer.value))
      case SecurityVerify => q == r.(securityVerify := Some(agents.securityVerify.answer.value))
      case Diagnose => q == r.(diagnosis := Some(agents.diagnose.answer.value))
      case ProposeFix => q == r.(fix := Some(agents.proposeFix.answer.value))
      case _ => false
    }

    lemma StaysGenuine(agent: Agent, r: Reports, q: Reports, v: View)
      requires Genuine(r, v.filed, v.tagged, v.course.judged) && Adds(agent, r, q)
      ensures var w := WithReport(v, agent); Genuine(q, w.filed, w.tagged, w.course.judged)
    {
      hide IsTagged;
    }

    lemma SaysRaises(agent: Agent)
      ensures agent in Says().raises <==> Raises(agent)
    {
    }

    lemma SaysRules()
      ensures Says().rulesRaise == world.rules.Raised?
    {
    }

    lemma SaysRegressed()
      ensures Says().regressed <==>
        && !Raises(TesterVerify) && !Raises(SecurityVerify)
        && SeesRegression(agents.testerVerify.answer.value, agents.securityVerify.answer.value)
    {
    }

    lemma SaysBaselines()
      ensures Says().steady <==> !Raises(TesterBaseline) && agents.testerBaseline.answer.value.steady
      ensures Says().secure <==> !Raises(SecurityBaseline) && !agents.securityBaseline.answer.value.criticalOrHigh
    {
    }

    /** What the operator wrote in the batches before this one, the first aside: that one comes before
        the run's first save. */
    ghost function Consumed(n: nat): seq<Store.Write>
      requires n <= |world.operator|
    {
      if n <= 1 then [] else Consumed(n - 1) + world.operator[n - 1]
    }

    /** The harness shows the spend, and an invocation of each call behind those it carried before. */
    ghost predicate Billed(before: seq<Harness.Invocation>, after: seq<Harness.Invocation>, base: Option<real>,
                           spent: real, made: seq<Made>) {
      && base.Some? && Harness.TotalSpend(after) == base.value + spent
      && after == before + Harness.LogAll(ActionsOf(made))
    }

    lemma BilledMore(before: seq<Harness.Invocation>, after: seq<Harness.Invocation>, base: Option<real>,
                     spent: real, made: seq<Made>, m: Made)
      requires Billed(before, after, base, spent, made)
      ensures var more := Harness.Log(ActionOf(m));
        Billed(before, after + more, base, spent + Harness.TotalSpend(more), made + [m])
    {
      var more := Harness.Log(ActionOf(m));
      ActionsMore(made, m);
      Harness.TotalSpendAppend(after, more);
      assert (before + Harness.LogAll(ActionsOf(made))) + more == before + (Harness.LogAll(ActionsOf(made)) + more);
    }

    /** Every call has been paid for. */
    ghost predicate Charged()
      reads this`log, this`carried, log, Ledger()
    {
      harness != null ==>
        && log.view.money.paid
        && Billed(carried, harness.invocations, log.setup.base, log.view.money.spent, log.view.money.made)
    }

    /** The row shows the operator's flags, the record the state, the session the hooks. */
    ghost predicate Settling()
      reads this`plan, this`record, this`log, this`session, session, log, store
    {
      && log.setup.plan == plan && log.setup.canCleanUp == agents.cleanup.Some?
      && log.setup.base.Some? == (harness != null)
      && Id() in store.rows && store.rows[Id()].flags == log.view.signals.flags
      && log.view.course.hooks == PluginHost.Stages(if session == null then [] else session.mid)
      && record.state == (if log.view.at.paused then PAUSED else log.view.at.phase)
      && (record.finished <==> Terminal(log.view.at.phase))
      && (record.abortReason.Some? <==> log.view.at.phase == ABORTED)
      && log.setup.plugin == plugin && log.setup.says == Says()
      && Genuine(record.reports, log.view.filed, log.view.tagged, log.view.course.judged)
    }

    /** And the operator's writes have been noted. */
    ghost predicate Mirrored()
      reads this`plan, this`record, this`calls, this`log, this`session, session, log, store
    {
      && Settling()
      && calls <= |world.operator| && (world.operator != [] ==> calls >= 1) && log.view.signals.wrote == Consumed(calls)
    }

    ghost predicate Kept()
      reads this`plan, this`record, this`calls, this`log, this`session, session, log, store
    {
      log.Valid() && Mirrored() && (Terminal(log.view.at.phase)
        || Released(log.view.signals.flags, world.operator[calls..]))
    }

    ghost predicate Sound()
      reads this`plan, this`record, this`calls, this`log, this`session, this`carried, session, log, store, Ledger()
    {
      Kept() && Charged()
    }

    /** The session, if there is one, is this plugin's. */
    ghost predicate Attached()
      reads this`session, session
    {
      session != null ==> session.Valid() && session.plugin == plugin
    }

    ghost predicate InSession()
      reads this`session, session
    {
      session != null && Attached() && !session.tornDown && session.Tracked()
    }

    // ----- the store, with an operator writing in between ----------------------------------------------

    method Operator()
      requires Sound()
      modifies this`calls, log`trace, log`view, store
      ensures Sound() && store.rows[Id()].blob == old(store.rows[Id()].blob)
      ensures log.view == WithWrites(old(log.view), log.view)
      ensures if old(calls) < |world.operator| then calls == old(calls) + 1
          else calls == old(calls) && log.view == old(log.view)
    {
      hide Safe, Fold, Genuine, Says, Billed, PluginHost.Stages;
      if calls < |world.operator| {
        var batch := world.operator[calls];
        WriteBatch(batch);
        assert world.operator[calls..][0] == batch && world.operator[calls..][1..] == world.operator[calls + 1..];
        calls := calls + 1;
      }
    }

    method WriteBatch(batch: seq<Store.Write>)
      requires log.Valid() && Settling()
      modifies log`trace, log`view, store
      ensures log.Valid() && Settling() && store.rows[Id()].blob == old(store.rows[Id()].blob)
      ensures log.view == WithWrites(old(log.view), log.view)
      ensures log.view.signals.flags == Store.Effect(old(log.view.signals.flags), batch)
      ensures log.view.signals.wrote == old(log.view.signals.wrote) + batch
    {
      hide Safe, Fold, Genuine, Says, Harness.TotalSpend, Billed, Pending, AsksForPause, PluginHost.Stages;
      for n := 0 to |batch|
        invariant log.Valid() && Settling()
        invariant log.view == WithWrites(old(log.view), log.view)
        invariant store.rows[Id()].blob == old(store.rows[Id()].blob)
        invariant log.view.signals.wrote == old(log.view.signals.wrote) + batch[..n]
        invariant Store.Effect(old(log.view.signals.flags), batch) == Store.Effect(log.view.signals.flags, batch[n..])
      {
        assert batch[n..][0] == batch[n] && batch[n..][1..] == batch[n + 1..];
        assert batch[..n + 1] == batch[..n] + [batch[n]];
        match batch[n] {
          case SetPause(on) => var _ := store.SetPause(Id(), on);
          case RequestAbort(reason) => var _ := store.RequestAbort(Id(), reason);
        }
        log.Write(batch[n]);
      }
      assert batch[|batch|..] == [] && batch[..|batch|] == batch;
    }

    method Save()
      requires Sound() && CanSave(log.setup, log.view, record.state, record.abortReason, record.finished)
      modifies this`calls, log`trace, log`view, store
      ensures Sound() && store.rows[Id()].blob == record && calls >= old(calls)
      ensures log.view == WithSaved(WithWrites(old(log.view), log.view), record.state)
      ensures record.abortReason.Some? ==> Justified(log.setup, log.view, record.abortReason.value)
    {
      hide Safe, Fold, Says, Explained, Genuine, Released, Harness.TotalSpend, Billed, Kept, Charged, Pending,
        AsksForPause,
        PluginHost.Stages, Justified, Persists, Terminal;
      ghost var before := log.view;
      Operator();
      if record.abortReason.Some? {
        JustifiedElsewhere(log.setup, before, log.view, record.abortReason.value);
      }
      StoreRecord();
      if record.abortReason.Some? {
        JustifiedElsewhere(log.setup, before, log.view, record.abortReason.value);
      }
    }

    method StoreRecord()
      requires Sound() && CanSave(log.setup, log.view, record.state, record.abortReason, record.finished)
      modifies log`trace, log`view, store
      ensures Sound() && store.rows[Id()].blob == record && log.view == WithSaved(old(log.view), record.state)
    {
      hide Safe, Fold, Says, Explained, Genuine, Released, Harness.TotalSpend, Billed, Pending, AsksForPause,
        PluginHost.Stages, Justified, Persists, Terminal;
      store.Save(Id(), record);
      log.Save(record.state, record.abortReason, record.finished);
    }

    method ClearControl()
      requires Sound() && log.view.at.saved.Some? && Terminal(log.view.at.saved.value) && Terminal(log.view.at.phase)
      modifies this`calls, log`trace, log`view, store
      ensures Sound() && store.rows[Id()].blob == old(store.rows[Id()].blob)
      ensures log.view == WithCleared(WithWrites(old(log.view), log.view))
      ensures record.abortReason.Some? && Justified(log.setup, old(log.view), record.abortReason.value) ==>
        Justified(log.setup, log.view, record.abortReason.value)
    {
      hide Safe, Fold, Says, Explained, Genuine, Released, Harness.TotalSpend, Billed, Pending, AsksForPause,
        PluginHost.Stages, Justified;
      ghost var before := log.view;
      Operator();
      store.ClearControl(Id());
      log.Clear();
      if record.abortReason.Some? && Justified(log.setup, before, record.abortReason.value) {
        JustifiedElsewhere(log.setup, before, log.view, record.abortReason.value);
      }
    }

    method LoadControl() returns (flags: Store.Flags)
      requires Sound() && CanPoll(log.setup, log.view)
      modifies this`calls, log`trace, log`view, store
      ensures Sound() && flags == log.view.signals.flags
      ensures log.view == WithPoll(WithWrites(old(log.view), log.view), flags) && calls <= |world.operator|
      ensures if old(calls) < |world.operator| then calls == old(calls) + 1
          else calls == old(calls) && (flags.abort || !flags.pause)
    {
      hide Safe, Fold, Says, Explained, Genuine;
      Operator();
      flags := store.LoadControl(Id());
      log.Poll(flags);
      assert calls == |world.operator| ==> world.operator[calls..] == [];
    }

    // ----- helpers of the loop -----------------------------------------------------------------------------

    method Enter(state: ExperimentState)
      requires Sound() && !Terminal(state) && !Terminal(log.view.at.phase) && CanEnter(log.setup, log.view, state)
      modifies this`record, log`trace, log`view
      ensures Sound() && log.view == WithState(old(log.view), state)
      ensures record == old(record).(state := state)
    {
      hide Safe, Fold, Says, Explained, Genuine, Released, Harness.TotalSpend, Billed, Pending, AsksForPause,
        PluginHost.Stages;
      record := record.(state := state);
      log.Enter(state);
    }

    /** These three bring a record up to date with the harness and the session. */
    method SyncSpend(r: Record) returns (synced: Record)
      ensures synced == r.(spend := if harness == null then r.spend else Harness.TotalSpend(harness.invocations))
    {
      synced := r;
      if harness != null {
        var total := harness.Total();
        synced := r.(spend := total);
      }
    }

    method AttachInvocations(r: Record) returns (synced: Record)
      ensures synced == r.(invocations := if harness == null then r.invocations else harness.invocations)
    {
      synced := if harness == null then r else r.(invocations := harness.invocations);
    }

    method SyncPlugin(r: Record) returns (synced: Record)
      requires Attached()
      ensures synced == if session == null then r else
        r.(pluginRecords := session.records,
           reports := if session.verifyResult.Some? then r.reports.(verdict := session.verifyResult) else r.reports)
      ensures Genuine(r.reports, log.view.filed, log.view.tagged, log.view.course.judged) ==>
          Genuine(synced.reports, log.view.filed, log.view.tagged, log.view.course.judged)
    {
      synced := r;
      if session != null {
        synced := r.(pluginRecords := session.records);
        if session.verifyResult.Some? {
          synced := synced.(reports := r.reports.(verdict := session.verifyResult));
        }
      }
    }

    method MarkPaused()
      requires Sound() && PollPoint(log.view.at.phase) && log.view.signals.killed.None?
          && !Overspent(log.setup, log.view)
      requires Pausing(log.view) && !log.view.signals.marked
      modifies this`record, this`calls, log`trace, log`view, store
      ensures Sound() && log.view == WithSaved(WithWrites(WithState(old(log.view), PAUSED), log.view), PAUSED)
      ensures record == old(record).(state := PAUSED, spend := record.spend) && calls >= old(calls)
      ensures harness != null ==> record.spend == Harness.TotalSpend(harness.invocations)
    {
      hide Safe, Fold, Says, Explained, Genuine, Released, Harness.TotalSpend, Billed, Pending, AsksForPause,
        PluginHost.Stages;
      Enter(PAUSED);
      record := SyncSpend(record);
      Save();
    }

    /** Between every two phases: an abort request ends the run, a pause holds it until it is lifted. */
    method CheckControl() returns (fail: Option<AbortReason>)
      requires Sound() && CanPoll(log.setup, log.view) && !Pausing(log.view)
      modifies this`record, this`calls, log`trace, log`view, store
      ensures Sound()
      ensures log.view == old(log.view).(signals := log.view.signals,
          at := old(log.view).at.(paused := log.view.at.paused))
      ensures !Pausing(log.view)
      ensures fail.None? ==> Clear(log.view) && log.view.signals.killed.None?
      ensures fail.Some? ==> log.view.signals.killed == fail
      ensures record == old(record).(state := record.state, spend := record.spend)
    {
      hide Safe, Fold, Says, Explained, Genuine, Released, Harness.TotalSpend, Billed, Sound, Kept, Mirrored, Settling,
        PluginHost.Stages;
      var firstCheck := true;
      NothingMarked();
      while true
        invariant Sound() && CanPoll(log.setup, log.view)
        invariant firstCheck <==> !log.view.signals.marked
        invariant log.view == old(log.view).(signals := log.view.signals,
            at := old(log.view).at.(paused := log.view.at.paused))
        invariant record == old(record).(state := record.state, spend := record.spend)
        decreases |world.operator| - calls
      {
        var ctrl := LoadControl();
        if ctrl.abort {
          return Some(ctrl.reason.GetOr(UserKill));
        }
        if !ctrl.pause {
          return None;
        }
        if firstCheck {
          MarkPaused();
          firstCheck := false;
        }
      }
    }

    lemma NothingMarked()
      requires Sound() && !Pausing(log.view) && log.view.signals.killed.None?
      ensures !log.view.signals.marked
    {
      hide Safe, Fold, Settling, Charged, Released;
      MarkAlwaysAgrees(log.setup, log.trace);
    }

    method CheckBudgetStep(tracker: Safety.BudgetTracker) returns (fail: Option<AbortReason>)
      requires Sound() && AtGate(log.view) && log.view.signals.killed.None? && !Pausing(log.view)
          && !Overspent(log.setup, log.view) && tracker.budget == plan.budget
          && (harness == null ==> tracker.spent == 0.0)
      modifies this`record, this`checks, log`trace, log`view, tracker
      ensures Sound() && log.view.money.checked.Some?
          && log.view == WithCheck(old(log.view), log.view.money.checked.value)
      ensures fail == if Safety.WithinBudget(plan.budget, log.view.money.checked.value.0,
          log.view.money.checked.value.1) then None else Some(BudgetExceeded)
      ensures harness == null ==> tracker.spent == 0.0
      ensures record == old(record).(spend := tracker.spent)
    {
      hide Safe, Fold, Says, Explained, Genuine, Released, Harness.TotalSpend, Billed, PluginHost.Stages, Pending,
        AsksForPause, AtGate, Genuine, Settled;
      if harness != null {
        tracker.spent := harness.Total();
      }
      NoteSpend(tracker.spent);
      var _ := tracker.SoftWarnDue();
      var elapsed := world.elapsed(checks);
      checks := checks + 1;
      LogCheck(tracker.spent, elapsed);
      var exceeded := tracker.HardExceeded(elapsed);
      fail := if exceeded then Some(BudgetExceeded) else None;
    }

    method NoteSpend(spent: real)
      requires Sound()
      modifies this`record
      ensures Sound() && record == old(record).(spend := spent)
    {
      hide Safe, Fold, Says, Explained, Genuine, Released, Harness.TotalSpend, Billed, PluginHost.Stages;
      record := record.(spend := spent);
    }

    ghost method LogCheck(spent: real, elapsed: real)
      requires Sound() && AtGate(log.view) && log.view.signals.killed.None? && !Pausing(log.view) && elapsed >= 0.0
          && !Overspent(log.setup, log.view)
      requires spent == if harness == null then 0.0 else Harness.TotalSpend(harness.invocations)
      modifies log`trace, log`view
      ensures Sound() && log.view == WithCheck(old(log.view), (spent, elapsed))
    {
      hide Safe, Fold, Says, Explained, Genuine, Released, Harness.TotalSpend, PluginHost.Stages, Pending, AsksForPause;
      log.CheckBudget(spent, elapsed);
    }

    /** An agent's coroutine runs under the harness, if there is one. The injection's goes by way of the
        plugin's drive. */
    method Call(agent: Agent, name: string, operation: string, work: seq<Harness.Action>, raises: bool)
      requires Sound() && CanCall(log.setup, log.view, agent) && agent != Execute && work == Work(agent)
      requires ActionOf(Made(agent, false)) == Harness.Call(name, operation, work, raises)
      modifies log`trace, log`view, Ledger()
      ensures Sound()
      ensures log.view == AfterCall(old(log.view), agent).(money := log.view.money) && log.view.money.checked.None?
      ensures !Pausing(log.view) && AllPaid(log.setup, log.view)
      ensures raises || agent == ReadAnnotations || agent == Cleanup ==> !Unfiled(log.setup, log.view)
    {
      hide Safe, Fold, Says, Explained, Genuine, Released, Harness.TotalSpend, Billed, PluginHost.Stages, CanCall,
        Pending, AsksForPause;
      SaysCosts(agent);
      SaysRaises(agent);
      ghost var v := log.view;
      log.Call(agent);
      Pay(name, operation, work, raises, Made(agent, false), v);
    }

    /** The harness enters a call behind those the earlier view tells of. */
    method Pay(name: string, operation: string, work: seq<Harness.Action>, raises: bool, ghost m: Made, ghost v: View)
      requires Kept() && ActionOf(m) == Harness.Call(name, operation, work, raises) && !log.view.money.paid
      requires harness != null ==> Billed(carried, harness.invocations, log.setup.base, v.money.spent, v.money.made)
      requires log.view.money.spent == v.money.spent && log.view.money.made == v.money.made + [m]
      requires log.view.money.checked.None? && log.view.last.Some? && Harness.CostOf(work) == Due(log.setup, log.view)
      requires log.view.last == Some(Execute) ==> log.view.attack.injection.Some?
      modifies log`trace, log`view, Ledger()
      ensures Sound() && AllPaid(log.setup, log.view) && !Overspent(log.setup, log.view)
      ensures log.view == old(log.view).(money := log.view.money) && log.view.money.checked.None?
    {
      hide Safe, Fold, Says, Explained, Genuine, Released, Harness.TotalSpend, Billed, PluginHost.Stages, Due;
      if harness != null {
        PerformCall(name, operation, work, raises, m, v);
        log.Spend(Harness.CostOf(work));
      }
    }

    method PerformCall(name: string, operation: string, work: seq<Harness.Action>, raises: bool,
                       ghost m: Made, ghost v: View)
      requires harness != null && ActionOf(m) == Harness.Call(name, operation, work, raises)
      requires Billed(carried, harness.invocations, log.setup.base, v.money.spent, v.money.made)
      modifies Ledger()
      ensures Billed(carried, harness.invocations, log.setup.base, v.money.spent + Harness.CostOf(work),
          v.money.made + [m])
      ensures Harness.CostOf(work) >= 0.0
    {
      var call := Harness.Call(name, operation, work, raises);
      BilledMore(carried, harness.invocations, log.setup.base, v.money.spent, v.money.made, m);
      harness.Perform(call);
      Harness.CostIsConserved(call);
      Harness.CostIsNonNegative(work);
    }

    /** The record's spend and invocations are the harness's. */
    ghost predicate Settled()
      reads this`record, Ledger()
    {
      harness != null ==>
        record.invocations == harness.invocations && record.spend == Harness.TotalSpend(harness.invocations)
    }

    /** The reason on record is one the run may be aborted for, an operator's request first. */
    ghost predicate Blamed()
      reads this`record, this`log, log
    {
      && (log.view.signals.killed.Some? ==> record.abortReason == log.view.signals.killed)
      && (record.abortReason.Some? ==> Justified(log.setup, log.view, record.abortReason.value))
    }

    /** The record with everything a terminal state puts on it. */
    method Finalized(state: ExperimentState, reason: Option<AbortReason>) returns (r: Record)
      requires Attached()
      ensures r.state == state && r.abortReason == reason && r.finished
      ensures session != null ==> r.pluginRecords == session.records
      ensures harness != null ==>
        r.invocations == harness.invocations && r.spend == Harness.TotalSpend(harness.invocations)
      ensures Genuine(record.reports, log.view.filed, log.view.tagged, log.view.course.judged) ==>
          Genuine(r.reports, log.view.filed, log.view.tagged, log.view.course.judged)
    {
      hide Genuine, Harness.TotalSpend, Billed, Pending, AsksForPause, PluginHost.Stages;
      r := AttachInvocations(record.(state := state, abortReason := reason, finished := true));
      r := SyncSpend(r);
      r := SyncPlugin(r);
    }

    method EnterTerminal(state: ExperimentState, reason: Option<AbortReason>)
      requires Sound() && Attached() && CanEnter(log.setup, log.view, state)
      requires Terminal(state) && !Terminal(log.view.at.phase) && (reason.Some? <==> state == ABORTED)
      requires reason.Some? ==> Justified(log.setup, log.view, reason.value)
      requires log.view.signals.killed.Some? ==> reason == log.view.signals.killed
      modifies this`record, log`trace, log`view
      ensures Sound() && record.abortReason == reason && Settled() && log.view == WithState(old(log.view), state)
      ensures Blamed() && (session != null ==> record.pluginRecords == session.records)
    {
      hide Safe, Fold, Says, Explained, Genuine, Moves, CanEnter, Released, Harness.TotalSpend, Billed, Pending,
        AsksForPause, PluginHost.Stages, Justified;
      if reason.Some? {
        JustifiedElsewhere(log.setup, log.view, WithState(log.view, state), reason.value);
      }
      record := Finalized(state, reason);
      log.Enter(state);
    }

    /** The terminal save, and then the operator's flags are cleared. */
    method Conclude(state: ExperimentState, reason: Option<AbortReason>)
      requires Sound() && Attached() && CanEnter(log.setup, log.view, state) && Persists(log.view.at.saved, state)
      requires Terminal(state) && !Terminal(log.view.at.phase) && (reason.Some? <==> state == ABORTED)
      requires reason.Some? ==> Justified(log.setup, log.view, reason.value)
      modifies this`record, this`calls, log`trace, log`view, store
      ensures Sound() && store.rows[Id()].blob == record && record.abortReason == reason && Settled() && Blamed()
      ensures session != null ==> record.pluginRecords == session.records
      ensures log.view == WithCleared(WithWrites(WithSaved(WithState(old(log.view), state), state), log.view))
    {
      hide Safe, Fold, Says, Explained, Genuine, Moves, Persists, CanEnter, Released, Harness.TotalSpend, Billed,
        Pending, AsksForPause, PluginHost.Stages, Justified,
        WithCleared, WithWrites, WithSaved, Mirrored;
      KilledGivesReason(log.setup, log.view, state, reason);
      EnterTerminal(state, reason);
      StoreTerminal();
    }

    method StoreTerminal()
      requires Sound() && Terminal(log.view.at.phase) && !log.view.at.paused
          && Persists(log.view.at.saved, log.view.at.phase) && Blamed()
      modifies this`calls, log`trace, log`view, store
      ensures Sound() && store.rows[Id()].blob == record && Blamed()
      ensures log.view == WithCleared(WithWrites(WithSaved(old(log.view), old(log.view.at.phase)), log.view))
    {
      hide Safe, Fold, Says, Explained, Genuine, Moves, Persists, Released, Harness.TotalSpend, Billed, Pending,
        AsksForPause, PluginHost.Stages, Justified;
      assert CanSave(log.setup, log.view, record.state, record.abortReason, record.finished);
      hide Sound, Kept, Mirrored, Settling;
      Save();
      ClearControl();
    }

    method Abort(reason: AbortReason)
      requires Sound() && Attached() && !Terminal(log.view.at.phase) && !log.view.attack.owesCleanup
      requires !Unfiled(log.setup, log.view) && !Pausing(log.view)
      requires Persists(log.view.at.saved, ABORTED) && Justified(log.setup, log.view, reason)
      modifies this`record, this`calls, log`trace, log`view, store
      ensures Sound() && store.rows[Id()].blob == record && record.abortReason == Some(reason) && Settled() && Blamed()
      ensures session != null ==> record.pluginRecords == session.records
      ensures log.view == WithCleared(WithWrites(WithSaved(WithState(old(log.view), ABORTED), ABORTED), log.view))
    {
      hide Safe, Fold, Says, Explained, Genuine, Released, Harness.TotalSpend, Billed, Pending, AsksForPause,
        PluginHost.Stages;
      Conclude(ABORTED, Some(reason));
    }

    method Finish()
      requires Sound() && Attached() && CanEnter(log.setup, log.view, RECORDED) && log.view.signals.killed.None?
      requires Persists(log.view.at.saved, RECORDED)
      modifies this`record, this`calls, log`trace, log`view, store
      ensures Sound() && store.rows[Id()].blob == record && record.abortReason == None && Settled() && Blamed()
      ensures session != null ==> record.pluginRecords == session.records
      ensures log.view == WithCleared(WithWrites(WithSaved(WithState(old(log.view), RECORDED), RECORDED), log.view))
    {
      hide Safe, Fold, Says, Explained, Genuine, Released, Harness.TotalSpend, Billed, Pending, AsksForPause,
        PluginHost.Stages;
      Conclude(RECORDED, None);
    }

    // ----- the run body, phase by phase --------------------------------------------------------------------

    /** The body has entered and persisted this state, and nothing speaks against going on. */
    ghost predicate Going(state: ExperimentState)
      reads this, session, log, store, Ledger()
    {
      && Sound() && InSession() && log.view.at.phase == state && log.view.at.saved == Some(state)
      && log.view.gates.opened_ && !log.view.gates.closed && log.view.signals.killed.None?
      && !log.view.attack.owesCleanup && !Unfiled(log.setup, log.view) && !Pausing(log.view)
      && !Overspent(log.setup, log.view) && AllPaid(log.setup, log.view)
    }

    /** The same, except that the state need not be persisted yet. */
    ghost predicate Entering(state: ExperimentState)
      reads this, session, log, store, Ledger()
    {
      && Sound() && InSession() && log.view.at.phase == state && !log.view.at.paused && state != PAUSED
      && !Terminal(state)
      && log.view.gates.opened_ && !log.view.gates.closed && log.view.signals.killed.None?
      && !log.view.attack.owesCleanup && !Unfiled(log.setup, log.view) && !Pausing(log.view)
      && !Overspent(log.setup, log.view) && AllPaid(log.setup, log.view)
    }

    ghost predicate At(state: ExperimentState)
      reads this, session, log, store, Ledger()
    {
      Going(state) && !log.view.at.paused
    }

    ghost predicate Tracking(tracker: Safety.BudgetTracker)
      reads this`plan, tracker
    {
      tracker.budget == plan.budget && (harness == null ==> tracker.spent == 0.0)
    }

    ghost predicate BaselinesPassed()
      reads this`plan, this`log, log
    {
      && log.view.gates.steady && log.view.gates.secure
      && (plan.safety.requireAnnotation ==> log.view.gates.annotated)
    }

    /** How a phase that does not continue leaves things: concluded and stored, or ready to be aborted. */
    ghost predicate Ended(step: Step)
      reads this, session, log, store, Ledger()
    {
      && Sound() && InSession() && log.view.gates.opened_ && !log.view.gates.closed
      && match step
         case Concluded =>
           && Terminal(log.view.at.phase) && !log.view.at.paused && log.view.at.saved == Some(log.view.at.phase)
           && store.rows[Id()].blob == record && Settled() && Blamed() && log.view.cleared
           && record.pluginRecords == session.records
         case Escaped =>
           && !Terminal(log.view.at.phase) && Persists(log.view.at.saved, ABORTED)
           && log.view.signals.killed.None? && !log.view.attack.owesCleanup && Broken(log.setup, log.view)
           && !Unfiled(log.setup, log.view) && !Pausing(log.view)
         case Continue => false
    }

    /** An exception leaves the body. */
    method Escape() returns (step: Step)
      requires Sound() && InSession() && log.view.gates.opened_ && !log.view.gates.closed
      requires !Terminal(log.view.at.phase) && !log.view.attack.owesCleanup && Persists(log.view.at.saved, ABORTED)
      requires !Unfiled(log.setup, log.view) && !Pausing(log.view)
      requires log.view.signals.killed.None? && Broken(log.setup, log.view)
      ensures step == Escaped && Ended(step)
    {
      hide Safe, Fold, Says, Explained, Genuine, Released, Harness.TotalSpend, Billed, Pending, AsksForPause,
        PluginHost.Stages, Persists;
      step := Escaped;
    }

    /** An exception of the plugin's leaves the body. */
    method EscapeHook(stage: PluginHost.Stage) returns (step: Step)
      requires Sound() && InSession() && log.view.gates.opened_ && !log.view.gates.closed
      requires !Terminal(log.view.at.phase) && !log.view.attack.owesCleanup && Persists(log.view.at.saved, ABORTED)
      requires !Unfiled(log.setup, log.view) && !Pausing(log.view)
      requires log.view.signals.killed.None? && PluginHost.HookRaises(plugin, stage) && stage in log.view.course.hooks
      requires match log.view.last
               case Some(SecurityBaseline) => stage == PluginHost.CaptureBaseline
               case Some(Execute) => stage == PluginHost.CollectDiagnostics && log.view.attack.drive.Tripped?
                 && log.view.attack.injection.Some?
                 && InjectionFailed(log.setup, log.view)
               case Some(Cleanup) => stage == PluginHost.CollectDiagnostics
               case Some(SecurityVerify) =>
                 stage == PluginHost.VerifyTest || (stage == PluginHost.CollectDiagnostics && Regressed(log.setup))
               case _ => false
      ensures step == Escaped && Ended(step)
    {
      hide Safe, Fold, Says, Explained, Genuine, Released, Harness.TotalSpend, Billed, Pending, AsksForPause,
        PluginHost.Stages, Persists;
      step := Escaped;
    }

    method Fail(reason: AbortReason) returns (step: Step)
      requires Sound() && InSession() && log.view.gates.opened_ && !log.view.gates.closed
      requires !Terminal(log.view.at.phase) && !log.view.attack.owesCleanup && Persists(log.view.at.saved, ABORTED)
      requires !Unfiled(log.setup, log.view) && !Pausing(log.view)
      requires Justified(log.setup, log.view, reason)
      modifies this`record, this`calls, log`trace, log`view, store
      ensures step == Concluded && Ended(step)
    {
      hide Safe, Fold, Says, Explained, Genuine, Released, Harness.TotalSpend, Billed, Pending, AsksForPause,
        PluginHost.Stages, Persists;
      Abort(reason);
      step := Concluded;
    }

    method Succeed() returns (step: Step)
      requires Sound() && InSession() && log.view.gates.opened_ && !log.view.gates.closed
      requires CanEnter(log.setup, log.view, RECORDED) && log.view.signals.killed.None?
          && Persists(log.view.at.saved, RECORDED)
      modifies this`record, this`calls, log`trace, log`view, store
      ensures step == Concluded && Ended(step)
    {
      hide Safe, Fold, Says, Explained, Genuine, Released, Harness.TotalSpend, Billed, Pending, AsksForPause,
        PluginHost.Stages, Persists, Justified, CanEnter, Mirrored;
      Finish();
      step := Concluded;
    }

    /** Aborts out of a state that is never persisted itself. */
    method FailAs(from: ExperimentState, state: ExperimentState, reason: AbortReason) returns (step: Step)
      requires At(from) && Transient(state) && Moves(from, state) && from != REGRESSED
          && CanEnter(log.setup, log.view, state)
      requires Explained(log.setup, log.view, reason)
      modifies this`record, this`calls, log`trace, log`view, store
      ensures step == Concluded && Ended(step)
    {
      hide Safe, Fold, Says, Explained, Genuine, Released, Harness.TotalSpend, Billed, Pending, AsksForPause,
        PluginHost.Stages, Sound, Kept, Mirrored, InSession, Settled;
      ghost var before := log.view;
      Enter(state);
      JustifiedElsewhere(log.setup, before, log.view, reason);
      step := Fail(reason);
    }

    /** Finishes out of a state that is never persisted itself. */
    method SucceedAs(from: ExperimentState, state: ExperimentState) returns (step: Step)
      requires Going(from) && (from == VERIFY || from == DIAGNOSED || from == PROPOSE_FIX)
      requires Transient(state) && Moves(from, state) && Moves(state, RECORDED) && CanEnter(log.setup, log.view, state)
      modifies this`record, this`calls, log`trace, log`view, store
      ensures step == Concluded && Ended(step)
    {
      hide Safe, Fold, Says, Explained, Genuine, Released, Harness.TotalSpend, Billed, Pending, AsksForPause,
        PluginHost.Stages, Sound, Kept, Mirrored, InSession, Settled;
      Enter(state);
      step := Succeed();
    }

    /** Leaves a persisted state for another and persists that. */
    method Advance(from: ExperimentState, state: ExperimentState)
      requires Going(from) && state != PAUSED && !Terminal(state) && !Terminal(from) && !Transient(state)
      requires Moves(from, state) && CanEnter(log.setup, log.view, state)
      modifies this`record, this`calls, log`trace, log`view, store
      ensures At(state) && SameButSignals(old(log.view), log.view)
      ensures record == old(record).(state := state)
    {
      hide Safe, Fold, Says, Explained, Genuine, Released, Harness.TotalSpend, Billed, Pending, AsksForPause,
        PluginHost.Stages, CanEnter;
      Enter(state);
      Save();
    }

    /** Persists the present state, for the first time or again. */
    method Persist(state: ExperimentState)
      requires Entering(state) && Persists(log.view.at.saved, state)
      modifies this`record, this`calls, log`trace, log`view, store
      ensures At(state) && SameButSignals(old(log.view), log.view) && record == old(record)
    {
      hide Safe, Fold, Says, Explained, Genuine, Released, Harness.TotalSpend, Billed, Pending, AsksForPause,
        PluginHost.Stages, Persists;
      Save();
    }

    /** The same, with the plugin's progress taken over into the record. */
    method SaveProgress(state: ExperimentState)
      requires Entering(state) && Persists(log.view.at.saved, state)
      modifies this`record, this`calls, log`trace, log`view, store
      ensures At(state) && SameButSignals(old(log.view), log.view) && record.pluginRecords == session.records
    {
      hide Safe, Fold, Says, Explained, Genuine, Released, Harness.TotalSpend, Billed, Pending, AsksForPause,
        PluginHost.Stages, Persists;
      record := SyncPlugin(record);
      Persist(state);
    }

    /** An agent's report goes on the record. */
    method FileReport(agent: Agent, reports: Reports)
      requires Sound() && log.view.last == Some(agent) && agent !in log.setup.says.raises
      requires Adds(agent, record.reports, reports)
      modifies this`record, log`trace, log`view
      ensures Sound() && log.view == WithReport(old(log.view), agent) && !Unfiled(log.setup, log.view)
      ensures record == old(record).(reports := reports)
    {
      hide Safe, Fold, Says, Explained, Genuine, Released, Harness.TotalSpend, Billed, PluginHost.Stages, Adds;
      StaysGenuine(agent, record.reports, reports, log.view);
      record := record.(reports := reports);
      log.File(agent);
    }

    method FileTimeline(timeline: ChaosTimeline)
      requires Sound() && agents.execute.answer == Answered(timeline) && log.view.last == Some(Execute)
      modifies this`record, log`trace, log`view
      ensures Sound() && log.view == WithReport(old(log.view), Execute) && !Unfiled(log.setup, log.view)
    {
      hide Safe, Fold, Says, Explained, Genuine, Released, Harness.TotalSpend, Billed, Pending, AsksForPause,
        PluginHost.Stages;
      SetupIs();
      SaysRaises(Execute);
      FileReport(Execute, record.reports.(timeline := Some(timeline)));
    }

    method NoteVerdict(verdict: Option<bool>)
      requires Sound() && verdict == PluginHost.VerdictOf(plugin)
      requires log.view.at.phase == VERIFY && log.view.course.hooks == VERIFIED
      modifies this`record, log`trace, log`view
      ensures Sound() && log.view == old(log.view).(course := old(log.view.course).(judged := true))
    {
      hide Safe, Fold, Says, Explained, Released, Harness.TotalSpend, Billed, Pending, AsksForPause, PluginHost.Stages;
      record := record.(reports := record.reports.(verdict := verdict));
      log.Judge();
    }

    /** A hook of the plugin between set-up and teardown. */
    method Hook(stage: PluginHost.Stage) returns (ok: bool)
      requires Sound() && InSession() && CanHook(log.setup, log.view, stage)
      modifies session, log`trace, log`view
      ensures Sound() && InSession() && (ok <==> !PluginHost.HookRaises(plugin, stage))
      ensures log.view == old(log.view).(
          course := old(log.view.course).(hooks := old(log.view.course.hooks) + [stage]))
    {
      hide Safe, Fold, Says, Explained, Genuine, Released, Harness.TotalSpend, Billed, Pending, AsksForPause,
        PluginHost.Stages, CanHook;
      PluginHost.StagesMore(session.mid, PluginHost.MidStep.Hooked(stage));
      ok := session.MidRun(stage);
      log.Hook(stage);
    }

    /** The two gates between phases that follow paid agent work. */
    method CheckGates(tracker: Safety.BudgetTracker) returns (fail: Option<AbortReason>)
      requires Sound() && AtGate(log.view) && log.view.signals.killed.None? && Tracking(tracker)
          && !Overspent(log.setup, log.view) && !Pausing(log.view)
      modifies this`record, this`calls, this`checks, log`trace, log`view, store, tracker
      ensures Sound() && Tracking(tracker) && !Pausing(log.view)
      ensures log.view == old(log.view).(signals := log.view.signals, money := log.view.money,
          at := old(log.view).at.(paused := log.view.at.paused))
      ensures log.view.money == old(log.view.money).(checked := log.view.money.checked)
      ensures fail.None? ==> Ready(log.setup, log.view) && log.view.signals.killed.None?
      ensures fail.Some? ==> Justified(log.setup, log.view, fail.value)
      ensures record == old(record).(state := record.state, spend := record.spend)
    {
      hide Safe, Fold, Says, Explained, Genuine, Released, Harness.TotalSpend, Billed, Pending, AsksForPause,
        PluginHost.Stages;
      SetupIs();
      fail := CheckBudgetStep(tracker);
      if fail.None? {
        fail := CheckControl();
      } else {
        SetupIs();
        OverspendJustifies(log.setup, log.view);
      }
    }

    /** The run goes on from here or is aborted, as the operator wishes. */
    method ControlGate(state: ExperimentState) returns (step: Step)
      requires Going(state) && (state == INITIALIZING || state == INJECTED)
      modifies this`record, this`calls, log`trace, log`view, store
      ensures step.Continue? ==> Going(state) && Clear(log.view)
      ensures step.Continue? ==> SameButChecks(old(log.view), log.view)
      ensures !step.Continue? ==> Ended(step)
    {
      hide Safe, Fold, Says, Explained, Genuine, Released, Harness.TotalSpend, Billed, Pending, AsksForPause,
        PluginHost.Stages, Sound, Kept, Mirrored, InSession, Settled;
      var fail := CheckControl();
      step := Continue;
      if fail.Some? {
        step := Fail(fail.value);
      }
    }

    /** The same, and within budget. */
    method BudgetGate(state: ExperimentState, tracker: Safety.BudgetTracker) returns (step: Step)
      requires Going(state) && AtGate(log.view) && Tracking(tracker)
      modifies this`record, this`calls, this`checks, log`trace, log`view, store, tracker
      ensures Tracking(tracker)
      ensures step.Continue? ==> Going(state) && Ready(log.setup, log.view)
      ensures step.Continue? ==> SameButChecks(old(log.view), log.view)
      ensures !step.Continue? ==> Ended(step)
    {
      hide Safe, Fold, Says, Explained, Genuine, Released, Harness.TotalSpend, Billed, Pending, AsksForPause,
        PluginHost.Stages, Sound, Kept, Mirrored, InSession, Settled;
      var fail := CheckGates(tracker);
      step := Continue;
      if fail.Some? {
        step := Fail(fail.value);
      }
    }

    // Up to the baselines: persist the set-up, then ask for the namespace's annotations.

    method Prepare() returns (step: Step)
      requires At(INITIALIZING)
      modifies this`record, this`calls, log`trace, log`view, store, Ledger()
      ensures step.Continue? ==> At(INITIALIZING) && (plan.safety.requireAnnotation ==> log.view.gates.annotated)
      ensures step.Continue? ==> SameCourse(old(log.view), log.view)
      ensures !step.Continue? ==> Ended(step)
    {
      hide Safe, Fold, Says, Explained, Genuine, Released, Harness.TotalSpend, Billed, Pending, AsksForPause,
        PluginHost.Stages, Sound, Kept, Mirrored, InSession, Settled,
        Ended;
      SaveProgress(INITIALIZING);
      step := Continue;
      if plan.safety.requireAnnotation {
        var fail := AnnotationGate();
        if fail.Some? {
          step := Fail(fail.value);
        }
      }
    }

    method AnnotationGate() returns (fail: Option<AbortReason>)
      requires At(INITIALIZING) && plan.safety.requireAnnotation
      modifies log`trace, log`view, Ledger()
      ensures At(INITIALIZING) && (fail.None? ==> log.view.gates.annotated) && SameCourse(old(log.view), log.view)
      ensures fail.Some? ==> Explained(log.setup, log.view, fail.value)
    {
      hide Safe, Fold, Says, Genuine, Released, Harness.TotalSpend, Billed, Pending, AsksForPause, PluginHost.Stages;
      var annotations := FetchAnnotations();
      log.ReadAnnotations(annotations);
      fail := Safety.CheckNamespaceAnnotation(plan.safety, annotations);
    }

    /** Annotations that cannot be read for any reason read as None. */
    method FetchAnnotations() returns (annotations: Option<map<string, string>>)
      requires At(INITIALIZING) && plan.safety.requireAnnotation
      modifies log`trace, log`view, Ledger()
      ensures At(INITIALIZING) && SameCourse(old(log.view), log.view) && CanRead(log.setup, log.view, annotations)
    {
      hide Safe, Fold, Explained, Genuine, Released, Harness.TotalSpend, Billed, Pending, AsksForPause,
        PluginHost.Stages;
      if agents.annotations.None? {
        return None;
      }
      var getter := agents.annotations.value;
      Call(ReadAnnotations, "chaos", "get_namespace_annotations", getter.work, getter.answer.Raised?);
      annotations := if getter.answer.Answered? then getter.answer.value else None;
    }

    // The baselines, and the gates in front of the injection.

    method Baseline(tracker: Safety.BudgetTracker) returns (step: Step)
      requires At(INITIALIZING) && (plan.safety.requireAnnotation ==> log.view.gates.annotated)
      requires Tracking(tracker) && log.view.attack == NO_ATTACK && log.view.course.hooks == []
          && !PluginHost.SetUpRaises(plugin)
      modifies this`record, this`calls, this`checks, log`trace, log`view, store, Ledger(), session, tracker
      ensures Tracking(tracker)
      ensures step.Continue? ==>
        Going(BASELINE_OK) && BaselinesPassed() && Ready(log.setup, log.view) && log.view.attack == NO_ATTACK
      ensures step.Continue? ==> log.view.last == Some(SecurityBaseline) && log.view.course.hooks == CAPTURED
      ensures !step.Continue? ==> Ended(step)
    {
      hide Safe, Fold, Says, Genuine, Released, Harness.TotalSpend, Billed, Pending, AsksForPause, PluginHost.Stages,
        Sound, Kept, Mirrored, InSession, Settled, Ended,
        Broken, Justified, Explained, InjectionFailed;
      step := EnterBaseline();
      if !step.Continue? { return; }
      step := HearBaselines();
      if !step.Continue? { return; }
      step := BudgetGate(BASELINE_OK, tracker);
    }

    method EnterBaseline() returns (step: Step)
      requires At(INITIALIZING) && !PluginHost.SetUpRaises(plugin)
      modifies this`record, this`calls, log`trace, log`view, store
      ensures step.Continue? ==> At(BASELINE) && Clear(log.view) && SameButChecks(old(log.view), log.view)
      ensures !step.Continue? ==> Ended(step)
    {
      hide Safe, Fold, Says, Explained, Genuine, Released, Harness.TotalSpend, Billed, Pending, AsksForPause,
        PluginHost.Stages, Sound, Kept, Mirrored, InSession, Settled,
        Ended;
      SetupIs();
      step := ControlGate(INITIALIZING);
      if step.Continue? {
        Advance(INITIALIZING, BASELINE);
      }
    }

    /** Both baseline agents, the plugin's capture, and the health gate. */
    method HearBaselines() returns (step: Step)
      requires At(BASELINE) && Clear(log.view) && (plan.safety.requireAnnotation ==> log.view.gates.annotated)
      requires log.view.course.hooks == []
      modifies this`record, this`calls, log`trace, log`view, store, Ledger(), session
      ensures step.Continue? ==> At(BASELINE_OK) && BaselinesPassed() && log.view.attack == old(log.view.attack)
      ensures step.Continue? ==> log.view.last == Some(SecurityBaseline) && log.view.course.hooks == CAPTURED
      ensures !step.Continue? ==> Ended(step)
    {
      hide Safe, Fold, Says, Explained, Genuine, Released, Harness.TotalSpend, Billed, Pending, AsksForPause,
        PluginHost.Stages, Sound, Kept, Mirrored, InSession, Settled,
        Ended;
      var tester := HearTester();
      if tester.Raised? {
        step := Escape();
        return;
      }
      var security := HearSecurity();
      if security.Raised? {
        step := Escape();
        return;
      }
      step := CaptureAndJudge(tester.value, security.value);
    }

    method CaptureAndJudge(tester: TesterReport, security: SecurityReport) returns (step: Step)
      requires At(BASELINE) && (plan.safety.requireAnnotation ==> log.view.gates.annotated)
      requires log.view.gates.steady == tester.steady == log.setup.says.steady
      requires log.view.gates.secure == !security.criticalOrHigh == log.setup.says.secure
      requires BASELINES <= log.view.filed && log.view.last == Some(SecurityBaseline) && log.view.course.hooks == []
      modifies this`record, this`calls, log`trace, log`view, store, session
      ensures step.Continue? ==> At(BASELINE_OK) && BaselinesPassed() && log.view.attack == old(log.view.attack)
      ensures step.Continue? ==> log.view.last == Some(SecurityBaseline) && log.view.course.hooks == CAPTURED
      ensures !step.Continue? ==> Ended(step)
    {
      hide Safe, Fold, Says, Explained, Genuine, Released, Harness.TotalSpend, Billed, Pending, AsksForPause,
        PluginHost.Stages, Sound, Kept, Mirrored, InSession, Settled, Ended;
      var ok := Hook(PluginHost.CaptureBaseline);
      if !ok {
        step := EscapeHook(PluginHost.CaptureBaseline);
        return;
      }
      step := JudgeBaselines(tester, security);
    }

    method JudgeBaselines(tester: TesterReport, security: SecurityReport) returns (step: Step)
      requires At(BASELINE) && (plan.safety.requireAnnotation ==> log.view.gates.annotated)
      requires log.view.gates.steady == tester.steady == log.setup.says.steady
      requires log.view.gates.secure == !security.criticalOrHigh == log.setup.says.secure
      requires BASELINES <= log.view.filed && log.view.last == Some(SecurityBaseline)
      requires !PluginHost.HookRaises(plugin, PluginHost.CaptureBaseline) && log.view.course.hooks == CAPTURED
      modifies this`record, this`calls, log`trace, log`view, store
      ensures step.Continue? ==> At(BASELINE_OK) && BaselinesPassed() && log.view.attack == old(log.view.attack)
      ensures step.Continue? ==> log.view.last == Some(SecurityBaseline) && log.view.course.hooks == CAPTURED
      ensures !step.Continue? ==> Ended(step)
    {
      hide Safe, Fold, Says, Genuine, Released, Harness.TotalSpend, Billed, Pending, AsksForPause, PluginHost.Stages,
        Mirrored, InSession, Settled, Ended;
      SetupIs();
      var fail := Safety.CheckBaselineHealthy(Some(tester), Some(security));
      if fail.Some? {
        step := FailAs(BASELINE, BASELINE_FAIL, fail.value);
      } else {
        Enter(BASELINE_OK);
        SaveProgress(BASELINE_OK);
        step := Continue;
      }
    }

    /** The trace is about this runner's plan, plugin and agents. */
    lemma SetupIs()
      requires Sound()
      ensures log.setup.plan == plan && log.setup.plugin == plugin && log.setup.says == Says()
    {
      hide Safe, Fold, Says, Genuine;
    }

    method HearTester() returns (answer: Answer<TesterReport>)
      requires At(BASELINE) && Clear(log.view) && (plan.safety.requireAnnotation ==> log.view.gates.annotated)
      modifies this`record, log`trace, log`view, Ledger()
      ensures At(BASELINE) && SameCourse(old(log.view), log.view) && log.view.last == Some(TesterBaseline)
      ensures log.view.gates == old(log.view.gates).(steady := log.view.gates.steady)
      ensures answer.Raised? <==> TesterBaseline in log.setup.says.raises
      ensures answer.Answered? ==>
        log.view.gates.steady == answer.value.steady == log.setup.says.steady && TesterBaseline in log.view.filed
    {
      hide Safe, Fold, Says, Explained, Genuine, Released, Harness.TotalSpend, Billed, Pending, AsksForPause,
        PluginHost.Stages, InSession;
      SetupIs();
      SaysRaises(TesterBaseline);
      SaysBaselines();
      answer := agents.testerBaseline.answer;
      Call(TesterBaseline, "tester", "baseline", agents.testerBaseline.work, answer.Raised?);
      if answer.Answered? {
        log.HearTester(answer.value.steady);
        FileReport(TesterBaseline, record.reports.(testerBaseline := Some(answer.value)));
      }
    }

    method HearSecurity() returns (answer: Answer<SecurityReport>)
      requires At(BASELINE) && log.view.last == Some(TesterBaseline)
      modifies this`record, log`trace, log`view, Ledger()
      ensures At(BASELINE) && SameCourse(old(log.view), log.view) && log.view.last == Some(SecurityBaseline)
      ensures log.view.gates == old(log.view.gates).(secure := log.view.gates.secure)
          && old(log.view.filed) <= log.view.filed
      ensures answer.Raised? <==> SecurityBaseline in log.setup.says.raises
      ensures answer.Answered? ==>
        log.view.gates.secure == !answer.value.criticalOrHigh == log.setup.says.secure
          && SecurityBaseline in log.view.filed
    {
      hide Safe, Fold, Says, Explained, Genuine, Released, Harness.TotalSpend, Billed, Pending, AsksForPause,
        PluginHost.Stages, InSession;
      SetupIs();
      SaysRaises(SecurityBaseline);
      SaysBaselines();
      answer := agents.securityBaseline.answer;
      Call(SecurityBaseline, "security", "baseline", agents.securityBaseline.work, answer.Raised?);
      if answer.Answered? {
        log.HearSecurity(answer.value.criticalOrHigh);
        FileReport(SecurityBaseline, record.reports.(securityBaseline := Some(answer.value)));
      }
    }

    // The injection, driven by the plugin's session.

    method InjectFault() returns (step: Step)
      requires Going(BASELINE_OK) && BaselinesPassed() && Ready(log.setup, log.view) && log.view.attack == NO_ATTACK
      requires log.view.last == Some(SecurityBaseline) && log.view.course.hooks == CAPTURED
      modifies this`record, this`calls, log`trace, log`view, store, Ledger(), session
      ensures step.Continue? ==> Going(INJECTED) && Clear(log.view) && log.view.course.hooks == DRIVEN
      ensures !step.Continue? ==> Ended(step)
    {
      hide Safe, Fold, Says, Explained, Genuine, Released, Harness.TotalSpend, Billed, Pending, AsksForPause,
        PluginHost.Stages, Sound, Kept, Mirrored, InSession, Settled,
        Ended;
      Advance(BASELINE_OK, INJECT);
      var outcome := Drive();
      match outcome {
        case TrippedGuard =>
          step := StopAfterGuard();
        case Failed =>
          step := FailInjection();
        case Finished(timeline) =>
          FileTimeline(timeline);
          if !timeline.success {
            step := FailInjection();
          } else {
            step := Injected();
          }
      }
    }

    method FailInjection() returns (step: Step)
      requires At(INJECT) && InjectionFailed(log.setup, log.view) && Broken(log.setup, log.view)
      requires log.view.course.hooks == DRIVEN
      modifies this`record, this`calls, log`trace, log`view, store
      ensures step == Concluded && Ended(step)
    {
      hide Safe, Fold, Says, Explained, Genuine, Released, Harness.TotalSpend, Billed, Pending, AsksForPause,
        PluginHost.Stages, Sound, Kept, Mirrored, InSession, Settled,
        Ended;
      BreakageJustifies(log.setup, log.view);
      step := FailAs(INJECT, INJECT_FAILED, AgentFailure);
    }

    method Injected() returns (step: Step)
      requires At(INJECT) && log.view.attack.injection == Some(Completed(true)) && log.view.attack.drive.Returned?
      requires Execute in log.view.filed && log.view.course.hooks == DRIVEN
      modifies this`record, this`calls, log`trace, log`view, store
      ensures step.Continue? ==> Going(INJECTED) && Clear(log.view) && log.view.course.hooks == DRIVEN
      ensures !step.Continue? ==> Ended(step)
    {
      hide Safe, Fold, Says, Explained, Genuine, Released, Harness.TotalSpend, Billed, Pending, AsksForPause,
        PluginHost.Stages, Sound, Kept, Mirrored, InSession, Settled,
        Ended;
      Advance(INJECT, INJECTED);
      step := ControlGate(INJECTED);
    }

    /** `drive_run` around `chaos.execute`. Nothing else goes on record while it runs, so the call is
        noted when it is over. */
    method Drive() returns (outcome: DriveOutcome)
      requires At(INJECT) && BaselinesPassed() && Ready(log.setup, log.view) && log.view.attack == NO_ATTACK
      requires log.view.last == Some(SecurityBaseline) && log.view.course.hooks == CAPTURED
      modifies log`trace, log`view, Ledger(), session
      ensures Sound() && InSession() && log.view.at == old(log.view.at) && log.view.gates == old(log.view.gates)
      ensures log.view.signals.killed.None? && !Overspent(log.setup, log.view) && AllPaid(log.setup, log.view)
      ensures !Pausing(log.view) && log.view.course.hooks == DRIVEN
      ensures (outcome.TrippedGuard? <==> log.view.attack.drive.Tripped?)
      ensures log.view.attack.owesCleanup == (outcome.TrippedGuard? && agents.cleanup.Some?)
      ensures outcome.Finished? ==> log.view.attack.injection == Some(Completed(outcome.timeline.success))
      ensures outcome.Finished? ==>
        agents.execute.answer == Answered(outcome.timeline) && log.view.attack.drive.Returned?
      ensures outcome.Failed? ==> InjectionFailed(log.setup, log.view) && Broken(log.setup, log.view)
      ensures !outcome.Finished? ==> !Unfiled(log.setup, log.view)
      ensures !outcome.Failed? ==> log.view.last == Some(Execute) && log.view.attack.injection.Some?
      ensures outcome.TrippedGuard? ==> InjectionFailed(log.setup, log.view)
    {
      hide Safe, Fold, Says, Explained, Genuine, Released, Harness.TotalSpend, Billed, Kept, Charged, Pending,
        AsksForPause,
        PluginHost.Stages;
      var answer := agents.execute.answer;
      SetupIs();
      var started, cut, end := DriveSession();
      if !started {
        return Failed;
      }
      NoteInjection(cut, end);
      outcome := match end { case Tripped => TrippedGuard case Returned => Finished(
        answer.value) case Threw => Failed };
    }

    /** The injection and its end go into the log. */
    ghost method LogInjection(cut: bool, end: DriveEnd)
      requires At(INJECT) && BaselinesPassed() && Ready(log.setup, log.view) && log.view.attack == NO_ATTACK
      requires MayEnd(cut, end) && log.view.course.hooks == DRIVEN
      modifies log`trace, log`view
      ensures log.Valid() && log.view == Struck(old(log.view), cut, end) && !Pausing(log.view)
      ensures !end.Returned? ==> !Unfiled(log.setup, log.view)
    {
      hide Safe, Fold, Says, Explained, Genuine, Released, Harness.TotalSpend, Billed, PluginHost.Stages, Pending,
        AsksForPause;
      SetupIs();
      EndIsAllowed(cut, end);
      log.Call(Execute);
      log.EndInjection(EndOf(cut), end);
    }

    /** An injection that ended like this, before it has been paid for. */
    ghost function Struck(v: View, cut: bool, end: DriveEnd): View {
      var w := AfterCall(v, Execute);
      w.(attack := Attack(Some(EndOf(cut)), end, end.Tripped? && agents.cleanup.Some?),
         money := w.money.(made := v.money.made + [Made(Execute, cut)]))
    }

    method NoteInjection(cut: bool, end: DriveEnd)
      requires At(INJECT) && BaselinesPassed() && Ready(log.setup, log.view) && log.view.attack == NO_ATTACK
      requires MayEnd(cut, end) && log.view.course.hooks == DRIVEN
      modifies log`trace, log`view, Ledger()
      ensures Sound() && log.view == Struck(old(log.view), cut, end).(money := log.view.money) && !Pausing(log.view)
      ensures !Overspent(log.setup, log.view) && AllPaid(log.setup, log.view)
      ensures !end.Returned? ==> !Unfiled(log.setup, log.view)
    {
      hide Safe, Fold, Says, Explained, Genuine, Released, Harness.TotalSpend, Billed, PluginHost.Stages, Pending,
        AsksForPause, MayEnd, Ready;
      var work := if cut then agents.cut else agents.execute.work;
      SaysCosts(Execute);
      SetupIs();
      ghost var v := log.view;
      LogInjection(cut, end);
      Pay("chaos", "execute", work, cut || agents.execute.answer.Raised?, Made(Execute, cut), v);
    }

    function EndOf(cut: bool): InjectionEnd {
      if cut then Cut else if agents.execute.answer.Raised? then Broke
        else Completed(agents.execute.answer.value.success)
    }

    /** What the injection's task raises if it comes to its end. */
    function Thrown(): Option<PluginHost.Exception> {
      if !agents.execute.answer.Raised? then None
        else Some(if agents.trips then PluginHost.Trips else PluginHost.Breaks)
    }

    /** How a drive of this plugin and this injection can end. */
    predicate MayEnd(cut: bool, end: DriveEnd) {
      && !PluginHost.DriveOf(plugin).guard.FactoryRaises?
      && (end.Returned? ==> !cut && !Raises(Execute) && !PluginHost.WorkloadRaises(PluginHost.DriveOf(plugin)))
      && (end.Tripped? ==> PluginHost.DriveTrips(plugin) || (!cut && Raises(Execute) && agents.trips))
      && (end.Threw? ==> PluginHost.DriveBreaks(plugin) || (!cut && Raises(Execute) && !agents.trips))
    }

    lemma EndIsAllowed(cut: bool, end: DriveEnd)
      requires log.setup.plugin == plugin && log.setup.says == Says() && MayEnd(cut, end)
      ensures CanEnd(log.setup, EndOf(cut), end)
    {
    }

    method DriveSession() returns (started: bool, cut: bool, end: DriveEnd)
      requires Sound() && InSession() && CanHook(log.setup, log.view, PluginHost.RunTest)
      modifies session, log`trace, log`view
      ensures Sound() && InSession()
      ensures log.view == old(log.view).(
          course := old(log.view.course).(hooks := old(log.view.course.hooks) + [PluginHost.RunTest]))
      ensures !started <==> PluginHost.DriveOf(plugin).guard.FactoryRaises?
      ensures started ==> MayEnd(cut, end)
    {
      hide Safe, Fold, Says, Explained, Genuine, Released, Harness.TotalSpend, Billed, Pending, AsksForPause,
        PluginHost.Stages, PluginHost.Settled, CanHook, MayEnd,
        PluginHost.Prompt;
      ghost var mid := session.mid;
      var r, finished, cancelled := session.DriveRun(Thrown());
      PluginHost.StagesMore(mid, PluginHost.Driven(finished));
      log.Hook(PluginHost.RunTest);
      started, cut, end := !r.NotStarted?, PluginHost.Inject in cancelled, EndOfDrive(r);
      if started {
        DriveMayEnd(r, finished, cancelled);
      }
    }

    /** What the run makes of the exception, if any, that the drive raises. */
    function EndOfDrive(r: PluginHost.DriveResult): DriveEnd {
      if !r.RaisedBy? then Returned
      else if PluginHost.ExceptionOf(PluginHost.DriveOf(plugin), Thrown(), r.task) == Some(PluginHost.Trips)
        then Tripped
      else Threw
    }

    lemma DriveMayEnd(r: PluginHost.DriveResult, finished: set<PluginHost.Task>, cancelled: set<PluginHost.Task>)
      requires var d := PluginHost.DriveOf(plugin);
        && !d.guard.FactoryRaises? && !r.NotStarted?
        && PluginHost.Settled(PluginHost.Work(d), PluginHost.Started(d), PluginHost.Failing(d, Thrown()), r, finished,
             cancelled)
      ensures MayEnd(PluginHost.Inject in cancelled, EndOfDrive(r))
    {
      hide PluginHost.Settled;
      PluginHost.SettledBlames(plugin, Thrown(), r, finished, cancelled);
      if r.RaisedBy? {
        var x := PluginHost.ExceptionOf(PluginHost.DriveOf(plugin), Thrown(), r.task);
        assert x.value.Trips? || x.value.Breaks?;
      }
    }

    /** A tripped guard may have cut the injection off: clean up as far as possible, gather evidence,
        abort. A cleanup that raises is swallowed; a diagnostics hook that raises is not. */
    method StopAfterGuard() returns (step: Step)
      requires Sound() && InSession() && log.view.at == Progress(INJECT, false, Some(INJECT))
          && log.view.signals.killed.None?
      requires !Overspent(log.setup, log.view) && AllPaid(log.setup, log.view)
      requires log.view.gates.opened_ && !log.view.gates.closed && log.view.attack.owesCleanup == agents.cleanup.Some?
      requires log.view.attack.drive.Tripped? && log.view.attack.injection.Some? && log.view.last == Some(Execute)
      requires InjectionFailed(log.setup, log.view) && log.view.course.hooks == DRIVEN
      requires !Unfiled(log.setup, log.view) && !Pausing(log.view)
      modifies this`record, this`calls, log`trace, log`view, store, Ledger(), session
      ensures !step.Continue? && Ended(step)
    {
      hide Safe, Fold, Says, Explained, Genuine, Released, Harness.TotalSpend, Billed, PluginHost.Stages, Pending,
        AsksForPause, Sound, Kept, Mirrored, InSession, Settled, Ended, Justified, Broken;
      CleanUpAfterGuard();
      step := AbortAfterGuard();
    }

    method CleanUpAfterGuard()
      requires Sound() && log.view.at == Progress(INJECT, false, Some(INJECT)) && AllPaid(log.setup, log.view)
      requires log.view.signals.killed.None? && !Overspent(log.setup, log.view) && log.view.course.hooks == DRIVEN
      requires log.view.gates.opened_ && !log.view.gates.closed && log.view.attack.owesCleanup == agents.cleanup.Some?
      requires InjectionFailed(log.setup, log.view) && !Unfiled(log.setup, log.view) && !Pausing(log.view)
      modifies this`record, log`trace, log`view, Ledger()
      ensures Sound() && !Overspent(log.setup, log.view) && AllPaid(log.setup, log.view)
      ensures !Unfiled(log.setup, log.view) && !Pausing(log.view)
      ensures log.view.at == Progress(INJECT_FAILED, false, Some(INJECT)) && log.view.gates == old(log.view.gates)
      ensures log.view.signals.killed.None? && log.view.course == old(log.view.course)
      ensures log.view.attack == old(log.view.attack).(owesCleanup := false)
      ensures log.view.last == if agents.cleanup.Some? then Some(Cleanup) else old(log.view.last)
    {
      hide Safe, Fold, Says, Explained, Genuine, Released, Harness.TotalSpend, Billed, PluginHost.Stages, Pending,
        AsksForPause, Kept, Charged;
      Enter(INJECT_FAILED);
      if agents.cleanup.Some? {
        var cleanup := agents.cleanup.value;
        Call(Cleanup, "chaos", "cleanup", cleanup.work, cleanup.answer.Raised?);
      }
    }

    method AbortAfterGuard() returns (step: Step)
      requires Sound() && InSession() && log.view.at == Progress(INJECT_FAILED, false, Some(INJECT))
      requires log.view.signals.killed.None? && !Overspent(log.setup, log.view) && AllPaid(log.setup, log.view)
      requires log.view.gates.opened_ && !log.view.gates.closed && !log.view.attack.owesCleanup
      requires log.view.attack.drive.Tripped? && log.view.attack.injection.Some?
      requires log.view.last == Some(Execute) || log.view.last == Some(Cleanup)
      requires InjectionFailed(log.setup, log.view) && log.view.course.hooks == DRIVEN
      requires !Unfiled(log.setup, log.view) && !Pausing(log.view)
      modifies this`record, this`calls, log`trace, log`view, store, session
      ensures !step.Continue? && Ended(step)
    {
      hide Safe, Fold, Says, Explained, Genuine, Released, Harness.TotalSpend, Billed, PluginHost.Stages, Pending,
        AsksForPause, Sound, Kept, Mirrored, InSession, Settled, Ended, Justified, Broken;
      SetupIs();
      var ok := Hook(PluginHost.CollectDiagnostics);
      if !ok {
        step := EscapeHook(PluginHost.CollectDiagnostics);
        return;
      }
      TripJustifies(log.setup, log.view);
      step := Fail(SloBreach);
    }

    // Verification, and what follows from a regression.

    method VerifyRun(tracker: Safety.BudgetTracker) returns (step: Step)
      requires Going(INJECTED) && Clear(log.view) && Tracking(tracker) && log.view.course.hooks == DRIVEN
      modifies this`record, this`calls, this`checks, log`trace, log`view, store, Ledger(), session, tracker
      ensures Tracking(tracker)
      ensures step.Continue? ==> At(REGRESSED) && Ready(log.setup, log.view) && log.setup.says.regressed
      ensures !step.Continue? ==> Ended(step)
    {
      hide Safe, Fold, Says, Explained, Genuine, Released, Harness.TotalSpend, Billed, Pending, AsksForPause,
        PluginHost.Stages, Sound, Kept, Mirrored, InSession, Settled,
        Ended, Broken, Justified, InjectionFailed, Tracking;
      Advance(INJECTED, VERIFY);
      var builtin, verdict;
      step, builtin, verdict := Measure();
      if step.Continue? {
        step := Judge(tracker, builtin, verdict);
      }
    }

    /** Steady if neither an agent nor the plugin objects. */
    method Judge(tracker: Safety.BudgetTracker, builtin: bool, verdict: Option<bool>) returns (step: Step)
      requires At(VERIFY) && Tracking(tracker) && VERIFICATIONS <= log.view.filed
          && log.view.last == Some(SecurityVerify)
      requires builtin == log.setup.says.regressed && verdict == PluginHost.VerdictOf(plugin)
      requires log.setup.plugin == plugin && !PluginHost.HookRaises(plugin, PluginHost.VerifyTest)
      requires log.view.course.judged && log.view.course.hooks == VERIFIED
      modifies this`record, this`calls, this`checks, log`trace, log`view, store, session, tracker
      ensures Tracking(tracker)
      ensures step.Continue? ==> At(REGRESSED) && Ready(log.setup, log.view) && log.setup.says.regressed
      ensures !step.Continue? ==> Ended(step)
    {
      hide Safe, Fold, Says, Explained, Genuine, Released, Harness.TotalSpend, Billed, Pending, AsksForPause,
        PluginHost.Stages, Sound, Kept, Mirrored, InSession, Settled,
        Ended, Broken,
        Justified, InjectionFailed;
      if !builtin && verdict != Some(false) {
        step := SucceedAs(VERIFY, STEADY);
      } else {
        step := RegressedRun(tracker, builtin);
      }
    }

    /** Both agents and the plugin judge the run; `builtin` says whether an agent found a regression. */
    method Measure() returns (step: Step, builtin: bool, verdict: Option<bool>)
      requires At(VERIFY) && Clear(log.view) && log.view.course.hooks == DRIVEN
      modifies this`record, log`trace, log`view, Ledger(), session
      ensures step.Continue? ==> At(VERIFY) && VERIFICATIONS <= log.view.filed && log.view.last == Some(SecurityVerify)
      ensures step.Continue? ==> builtin == log.setup.says.regressed && verdict == PluginHost.VerdictOf(plugin)
      ensures step.Continue? ==> log.setup.plugin == plugin && !PluginHost.HookRaises(plugin, PluginHost.VerifyTest)
      ensures step.Continue? ==> log.view.course.judged && log.view.course.hooks == VERIFIED
      ensures !step.Continue? ==> Ended(step)
    {
      hide Safe, Fold, Says, Explained, Genuine, Released, Harness.TotalSpend, Billed, Pending, AsksForPause,
        PluginHost.Stages, Sound, Kept, Mirrored, InSession, Settled,
        Ended;
      builtin, verdict := false, None;
      var tester := VerifyTester();
      if tester.Raised? {
        step := Escape();
        return;
      }
      var security := VerifySecurity();
      if security.Raised? {
        step := Escape();
        return;
      }
      step, verdict := AskPlugin();
      if step.Continue? {
        builtin := SeesRegression(tester.value, security.value);
        BuiltinIs(tester.value, security.value);
      }
    }

    /** The plugin's verdict, if it gives one, goes on record. */
    method AskPlugin() returns (step: Step, verdict: Option<bool>)
      requires At(VERIFY) && log.view.last == Some(SecurityVerify) && VERIFICATIONS <= log.view.filed
      requires log.view.course.hooks == DRIVEN
      modifies this`record, log`trace, log`view, session
      ensures step.Continue? ==> At(VERIFY) && log.view.last == Some(SecurityVerify) && VERIFICATIONS <= log.view.filed
      ensures step.Continue? ==> verdict == PluginHost.VerdictOf(plugin) && log.setup.plugin == plugin
      ensures step.Continue? ==> !PluginHost.HookRaises(plugin, PluginHost.VerifyTest)
      ensures step.Continue? ==> log.view.course.judged && log.view.course.hooks == VERIFIED
      ensures !step.Continue? ==> Ended(step)
    {
      hide Safe, Fold, Says, Explained, Genuine, Released, Harness.TotalSpend, Billed, Pending, AsksForPause,
        PluginHost.Stages, Sound, Kept, Mirrored, InSession, Settled, Ended;
      verdict := None;
      SetupIs();
      var answer := VerifyPlugin();
      if answer.Raised? {
        step := EscapeHook(PluginHost.VerifyTest);
        return;
      }
      verdict := answer.value;
      NoteVerdict(verdict);
      SetupIs();
      step := Continue;
    }

    lemma BuiltinIs(tester: TesterReport, security: SecurityReport)
      requires Sound() && agents.testerVerify.answer == Answered(tester)
          && agents.securityVerify.answer == Answered(security)
      ensures log.setup.says.regressed == SeesRegression(tester, security)
    {
      hide Safe, Fold, Says, Explained, Genuine, Released, Harness.TotalSpend, Billed, Pending, AsksForPause,
        PluginHost.Stages, Sound;
      SetupIs();
      SaysRegressed();
    }

    /** A regression only the plugin has seen is recorded; any other goes on to the diagnosis. */
    method RegressedRun(tracker: Safety.BudgetTracker, builtin: bool) returns (step: Step)
      requires At(VERIFY) && Tracking(tracker) && VERIFICATIONS <= log.view.filed
          && log.view.last == Some(SecurityVerify)
      requires builtin == log.setup.says.regressed && Regressed(log.setup)
      requires !PluginHost.HookRaises(log.setup.plugin, PluginHost.VerifyTest)
      requires log.view.course.judged && log.view.course.hooks == VERIFIED
      modifies this`record, this`calls, this`checks, log`trace, log`view, store, session, tracker
      ensures Tracking(tracker)
      ensures step.Continue? ==> At(REGRESSED) && Ready(log.setup, log.view) && builtin
      ensures !step.Continue? ==> Ended(step)
    {
      hide Safe, Fold, Says, Explained, Genuine, Released, Harness.TotalSpend, Billed, Pending, AsksForPause,
        PluginHost.Stages, Sound, Kept, Mirrored, InSession, Settled,
        Ended;
      SetupIs();
      var ok := Hook(PluginHost.CollectDiagnostics);
      if !ok {
        step := EscapeHook(PluginHost.CollectDiagnostics);
        return;
      }
      step := BudgetGate(VERIFY, tracker);
      if step.Continue? {
        step := PersistRegression(builtin);
      }
    }

    method PersistRegression(builtin: bool) returns (step: Step)
      requires Going(VERIFY) && Ready(log.setup, log.view) && VERIFICATIONS <= log.view.filed
          && builtin == log.setup.says.regressed && Regressed(log.setup)
      requires !PluginHost.HookRaises(log.setup.plugin, PluginHost.VerifyTest)
      requires !PluginHost.HookRaises(log.setup.plugin, PluginHost.CollectDiagnostics)
      requires log.view.course.judged && log.view.course.hooks == DIAGNOSED_BY_PLUGIN
      modifies this`record, this`calls, log`trace, log`view, store
      ensures step.Continue? ==>
        At(REGRESSED) && SameButChecks(old(log.view), log.view) && log.view.money == old(log.view.money)
      ensures step.Continue? ==> log.view.signals.polled == old(log.view.signals.polled) && builtin
      ensures !step.Continue? ==> Ended(step)
    {
      hide Safe, Fold, Says, Explained, Genuine, Released, Harness.TotalSpend, Billed, Pending, AsksForPause,
        PluginHost.Stages, Sound, Kept, Mirrored, InSession, Settled,
        Ended;
      Enter(REGRESSED);
      SaveProgress(REGRESSED);
      if builtin {
        step := Continue;
      } else {
        step := Succeed();
      }
    }

    method VerifyTester() returns (answer: Answer<TesterReport>)
      requires At(VERIFY) && Clear(log.view)
      modifies this`record, log`trace, log`view, Ledger()
      ensures At(VERIFY) && log.view.last == Some(TesterVerify) && answer == agents.testerVerify.answer
      ensures SameCourse(old(log.view), log.view)
      ensures answer.Raised? <==> TesterVerify in log.setup.says.raises
      ensures answer.Answered? ==> TesterVerify in log.view.filed
    {
      hide Safe, Fold, Says, Explained, Genuine, Released, Harness.TotalSpend, Billed, Kept, Charged, Pending,
        AsksForPause, PluginHost.Stages, InSession;
      SetupIs();
      SaysRaises(TesterVerify);
      answer := agents.testerVerify.answer;
      Call(TesterVerify, "tester", "verify", agents.testerVerify.work, answer.Raised?);
      if answer.Answered? {
        FileReport(TesterVerify, record.reports.(testerVerify := Some(answer.value)));
      }
    }

    method VerifySecurity() returns (answer: Answer<SecurityReport>)
      requires At(VERIFY) && log.view.last == Some(TesterVerify)
      modifies this`record, log`trace, log`view, Ledger()
      ensures At(VERIFY) && log.view.last == Some(SecurityVerify) && answer == agents.securityVerify.answer
      ensures SameCourse(old(log.view), log.view)
      ensures answer.Raised? <==> SecurityVerify in log.setup.says.raises
      ensures old(log.view.filed) <= log.view.filed && (answer.Answered? ==> SecurityVerify in log.view.filed)
    {
      hide Safe, Fold, Says, Explained, Genuine, Released, Harness.TotalSpend, Billed, Kept, Charged, Pending,
        AsksForPause, PluginHost.Stages, InSession;
      SetupIs();
      SaysRaises(SecurityVerify);
      answer := agents.securityVerify.answer;
      Call(SecurityVerify, "security", "verify", agents.securityVerify.work, answer.Raised?);
      if answer.Answered? {
        FileReport(SecurityVerify, record.reports.(securityVerify := Some(answer.value)));
      }
    }

    method VerifyPlugin() returns (verdict: Answer<Option<bool>>)
      requires Sound() && InSession() && CanHook(log.setup, log.view, PluginHost.VerifyTest)
      modifies session, log`trace, log`view
      ensures Sound() && InSession()
      ensures log.view == old(log.view).(
          course := old(log.view.course).(hooks := old(log.view.course.hooks) + [PluginHost.VerifyTest]))
      ensures verdict.Raised? <==> PluginHost.HookRaises(plugin, PluginHost.VerifyTest)
      ensures verdict.Answered? ==> verdict.value == PluginHost.VerdictOf(plugin)
    {
      hide Safe, Fold, Says, Explained, Genuine, Released, Harness.TotalSpend, Billed, Pending, AsksForPause,
        PluginHost.Stages, CanHook;
      PluginHost.StagesMore(session.mid, PluginHost.MidStep.Hooked(PluginHost.VerifyTest));
      verdict := session.Verify();
      log.Hook(PluginHost.VerifyTest);
    }

    // Diagnosis, suppression, and the fix.

    method DiagnoseRun(tracker: Safety.BudgetTracker) returns (step: Step)
      requires At(REGRESSED) && Ready(log.setup, log.view) && log.setup.says.regressed && Tracking(tracker)
      modifies this`record, this`calls, this`checks, log`trace, log`view, store, Ledger(), tracker
      ensures Tracking(tracker)
      ensures step.Continue? ==> Going(DIAGNOSED) && Ready(log.setup, log.view) && log.view.tagged == Some(true)
      ensures !step.Continue? ==> Ended(step)
    {
      hide Safe, Fold, Says, Explained, Genuine, Released, Harness.TotalSpend, Billed, Pending, AsksForPause,
        PluginHost.Stages, Sound, Kept, Mirrored, InSession, Settled,
        Ended, IsTagged;
      Advance(REGRESSED, DIAGNOSE);
      var diagnosis;
      step, diagnosis := HearDiagnosis();
      if !step.Continue? { return; }
      step := BudgetGate(DIAGNOSED, tracker);
      if !step.Continue? { return; }
      step := Triage(diagnosis);
    }

    /** The diagnosis, tagged. */
    method HearDiagnosis() returns (step: Step, diagnosis: Diagnosis)
      requires At(DIAGNOSE) && Ready(log.setup, log.view)
      modifies this`record, this`calls, log`trace, log`view, store, Ledger()
      ensures step.Continue? ==> At(DIAGNOSED)
      ensures step.Continue? ==>
        log.view.tagged == Some(Suppression.Active(diagnosis.hypotheses, diagnosis.suppressed, world.env) != [])
      ensures !step.Continue? ==> Ended(step)
    {
      hide Safe, Fold, Says, Explained, Genuine, Released, Harness.TotalSpend, Billed, Pending, AsksForPause,
        PluginHost.Stages, Sound, Kept, Mirrored, InSession, Settled,
        Ended;
      diagnosis := Diagnosis([], []);
      var answer := CallDiagnostician();
      if answer.Raised? {
        step := Escape();
        return;
      }
      Enter(DIAGNOSED);
      if world.rules.Raised? {
        step := EscapeRules();
        return;
      }
      diagnosis := Suppress(answer.value, world.rules.value);
      PersistDiagnosis(diagnosis);
      step := Continue;
    }

    /** The suppression rules cannot be read. */
    method EscapeRules() returns (step: Step)
      requires Entering(DIAGNOSED) && log.view.at.saved == Some(DIAGNOSE) && log.view.last == Some(Diagnose)
          && world.rules.Raised?
      ensures step == Escaped && Ended(step)
    {
      hide Safe, Fold, Explained, Genuine, Released, Harness.TotalSpend, Billed, Pending, AsksForPause,
        PluginHost.Stages, InSession;
      step := Escaped;
    }

    /** The tagged diagnosis replaces the agent's on the record. */
    method PersistDiagnosis(d: Diagnosis)
      requires Entering(DIAGNOSED) && log.view.at.saved == Some(DIAGNOSE) && Diagnose in log.view.filed && IsTagged(d)
      modifies this`record, this`calls, log`trace, log`view, store
      ensures At(DIAGNOSED) && log.view.tagged == Some(log.setup.says.active)
      ensures log.view.tagged == Some(Suppression.Active(d.hypotheses, d.suppressed, world.env) != [])
    {
      hide Safe, Fold, Says, Explained, Released, Harness.TotalSpend, Billed, Pending, AsksForPause, PluginHost.Stages,
        Settled, IsTagged, InSession;
      SetupIs();
      SaysRules();
      TaggedDecides(d);
      RulesWereRead(d);
      record := record.(reports := record.reports.(diagnosis := Some(d)));
      log.Tag(log.setup.says.active);
      assert Genuine(record.reports, log.view.filed, log.view.tagged, log.view.course.judged);
      Persist(DIAGNOSED);
    }

    /** Without an active hypothesis there is nothing to fix. */
    method Triage(d: Diagnosis) returns (step: Step)
      requires Going(DIAGNOSED) && Ready(log.setup, log.view)
      requires log.view.tagged == Some(Suppression.Active(d.hypotheses, d.suppressed, world.env) != [])
      modifies this`record, this`calls, log`trace, log`view, store
      ensures step.Continue? ==> Going(DIAGNOSED) && Ready(log.setup, log.view) && log.view.tagged == Some(true)
      ensures !step.Continue? ==> Ended(step)
    {
      hide Safe, Fold, Says, Explained, Genuine, Released, Harness.TotalSpend, Billed, Pending, AsksForPause,
        PluginHost.Stages, Sound, Kept, Mirrored, InSession, Settled,
        Ended;
      if Suppression.Active(d.hypotheses, d.suppressed, world.env) != [] {
        step := Continue;
      } else {
        step := SucceedAs(DIAGNOSED, FIX_DECLINED);
      }
    }

    method CallDiagnostician() returns (answer: Answer<Diagnosis>)
      requires At(DIAGNOSE) && Ready(log.setup, log.view)
      modifies this`record, log`trace, log`view, Ledger()
      ensures At(DIAGNOSE) && answer == agents.diagnose.answer && log.view.last == Some(Diagnose)
      ensures answer.Raised? <==> Diagnose in log.setup.says.raises
      ensures answer.Answered? ==> Diagnose in log.view.filed
    {
      hide Safe, Fold, Says, Explained, Genuine, Released, Harness.TotalSpend, Billed, Kept, Charged, Pending,
        AsksForPause, PluginHost.Stages, InSession;
      SetupIs();
      SaysRaises(Diagnose);
      answer := agents.diagnose.answer;
      Call(Diagnose, "diagnostician", "diagnose", agents.diagnose.work, answer.Raised?);
      if answer.Answered? {
        FileReport(Diagnose, record.reports.(diagnosis := Some(answer.value)));
      }
    }

    /** Suppression tags the report and keeps every hypothesis. */
    method Suppress(d: Diagnosis, rules: seq<Suppression.Rule>) returns (tagged: Diagnosis)
      ensures tagged.hypotheses == d.hypotheses
      ensures forall fp :: fp in tagged.suppressed <==>
        fp in d.suppressed || Suppression.Tagged(fp, d.hypotheses, rules, world.env)
    {
      var report := new Suppression.DiagnosisReport(d.hypotheses, d.suppressed);
      Suppression.ApplyToDiagnosis(report, rules, world.env);
      tagged := Diagnosis(report.hypotheses, report.suppressed);
    }

    method ProposeFixFor() returns (step: Step)
      requires Going(DIAGNOSED) && Ready(log.setup, log.view) && log.view.tagged == Some(true)
      modifies this`record, this`calls, log`trace, log`view, store, Ledger()
      ensures Ended(step)
    {
      hide Safe, Fold, Says, Explained, Genuine, Released, Harness.TotalSpend, Billed, Pending, AsksForPause,
        PluginHost.Stages, Sound, Kept, Mirrored, InSession, Settled,
        Ended, Justified, InjectionFailed;
      Advance(DIAGNOSED, PROPOSE_FIX);
      var answer := CallFixer();
      if answer.Raised? {
        step := Escape();
        return;
      }
      step := FixIsProposed();
    }

    method FixIsProposed() returns (step: Step)
      requires At(PROPOSE_FIX) && log.view.last == Some(ProposeFix) && ProposeFix in log.view.filed
      modifies this`record, this`calls, log`trace, log`view, store
      ensures Ended(step)
    {
      hide Safe, Fold, Says, Explained, Genuine, Released, Harness.TotalSpend, Billed, Pending, AsksForPause,
        PluginHost.Stages, Sound, Kept, Mirrored, InSession, Settled, Ended, Justified, InjectionFailed;
      step := SucceedAs(PROPOSE_FIX, FIX_PROPOSED);
    }

    method CallFixer() returns (answer: Answer<string>)
      requires At(PROPOSE_FIX) && Ready(log.setup, log.view) && log.view.tagged == Some(true)
      modifies this`record, log`trace, log`view, Ledger()
      ensures At(PROPOSE_FIX) && log.view.last == Some(ProposeFix)
      ensures answer.Raised? <==> ProposeFix in log.setup.says.raises
      ensures answer.Answered? ==> ProposeFix in log.view.filed
    {
      hide Safe, Fold, Says, Explained, Genuine, Released, Harness.TotalSpend, Billed, Kept, Charged, Pending,
        AsksForPause, PluginHost.Stages, Broken, Justified, CanEnter,
        InjectionFailed, InSession;
      SetupIs();
      SaysRaises(ProposeFix);
      answer := agents.proposeFix.answer;
      Call(ProposeFix, "fixer", "propose_fix", agents.proposeFix.work, answer.Raised?);
      if answer.Answered? {
        FileReport(ProposeFix, record.reports.(fix := Some(answer.value)));
      }
    }

    method RunBody() returns (step: Step)
      requires At(INITIALIZING) && log.view.attack == NO_ATTACK && log.view.course.hooks == []
          && !PluginHost.SetUpRaises(plugin)
      modifies this`record, this`calls, this`checks, log`trace, log`view, store, Ledger(), session
      ensures Ended(step)
    {
      hide Safe, Fold, Says, Explained, Genuine, Released, Harness.TotalSpend, Billed, Pending, AsksForPause,
        PluginHost.Stages, Sound, Kept, Mirrored, InSession, Settled,
        Ended, Going, At, Ready, Clear,
        BaselinesPassed;
      var tracker := new Safety.BudgetTracker(plan.budget);
      step := Prepare();
      if !step.Continue? { return; }
      step := Baseline(tracker);
      if !step.Continue? { return; }
      step := InjectFault();
      if !step.Continue? { return; }
      step := VerifyRun(tracker);
      if !step.Continue? { return; }
      step := DiagnoseRun(tracker);
      if !step.Continue? { return; }
      step := ProposeFixFor();
    }

    // ----- a whole run -----------------------------------------------------------------------------------------

    ghost function RowFlags(): Store.Flags
      reads this`plan, store
    {
      if Id() in store.rows then store.rows[Id()].flags else Store.NO_FLAGS
    }

    /** The operator does not leave the run paused for good. Signals for a row that does not exist yet
        are lost, so the first batch counts only if it does. */
    ghost predicate Unblocked()
      reads this`plan, store
    {
      if world.operator == [] then Released(RowFlags(), [])
      else Released(if Id() in store.rows then Store.Effect(RowFlags(), world.operator[0])
        else RowFlags(), world.operator[1..])
    }

    method OperatorBefore()
      requires calls == 0
      modifies this`calls, store
      ensures calls == (if world.operator == [] then 0 else 1) && (Id() in store.rows <==> Id() in old(store.rows))
      ensures RowFlags() == if world.operator != []
          && Id() in old(store.rows) then Store.Effect(old(RowFlags()), world.operator[0]) else old(RowFlags())
    {
      if world.operator != [] {
        var batch := world.operator[0];
        for n := 0 to |batch|
          invariant Id() in store.rows <==> Id() in old(store.rows)
          invariant if Id() in store.rows then Store.Effect(old(RowFlags()), batch)
              == Store.Effect(RowFlags(), batch[n..]) else RowFlags() == old(RowFlags())
        {
          assert batch[n..][0] == batch[n] && batch[n..][1..] == batch[n + 1..];
          match batch[n] {
            case SetPause(on) => var _ := store.SetPause(Id(), on);
            case RequestAbort(reason) => var _ := store.RequestAbort(Id(), reason);
          }
        }
        assert batch[|batch|..] == [];
        calls := 1;
      }
    }

    twostate lemma UnblockedNow()
      requires old(calls) == 0 && old(Unblocked()) && calls == (if world.operator == [] then 0 else 1)
      requires RowFlags() ==
        if world.operator != [] && old(Id() in store.rows) then Store.Effect(old(RowFlags()), world.operator[0])
          else old(RowFlags())
      ensures Released(RowFlags(), world.operator[calls..])
    {
      assert world.operator[0..] == world.operator;
    }

    /** The first save creates the row, or takes an existing one over together with its flags. */
    method Begin()
      requires calls == 0 && session == null && Unblocked()
      modifies this`record, this`calls, this`log, this`carried, store
      ensures Sound() && fresh(log) && log.view == WithSaved(Start(log.setup), INITIALIZING) && log.setup.plan == plan
      ensures harness != null ==> carried == harness.invocations
      ensures harness != null ==> log.setup.base == Some(Harness.TotalSpend(harness.invocations))
      ensures log.setup.flags == old(StartFlags())
    {
      hide Safe, Fold, Says, Explained, Genuine, Released, Harness.TotalSpend, Sound, Kept, Mirrored;
      carried := if harness == null then [] else harness.invocations;
      OperatorBefore();
      UnblockedNow();
      record := AttachInvocations(NEW_RECORD);
      log := new Recorder(Setup(plan, RowFlags(), if harness == null then None
        else Some(Harness.TotalSpend(harness.invocations)),
                                agents.cleanup.Some?, plugin, Says()));
      FirstSave();
    }

    method FirstSave()
      requires log.Valid() && log.view == Start(log.setup) && record == NEW_RECORD.(invocations := record.invocations)
      requires log.setup.plan == plan && log.setup.plugin == plugin && log.setup.says == Says()
          && log.setup.flags == RowFlags()
      requires log.setup.canCleanUp == agents.cleanup.Some?
      requires log.setup.base == if harness == null then None else Some(Harness.TotalSpend(harness.invocations))
      requires session == null && (harness != null ==> carried == harness.invocations)
      requires calls == (if world.operator == [] then 0 else 1) && Released(RowFlags(), world.operator[calls..])
      modifies log`trace, log`view, store
      ensures Sound() && log.view == WithSaved(Start(log.setup), INITIALIZING)
    {
      hide Safe, Fold, Says, Explained, Released, Harness.TotalSpend;
      store.Save(Id(), record);
      log.Save(INITIALIZING, None, false);
    }

    /** The flags a run starts with: those on an existing row, once the operator's first batch has
        reached them. */
    ghost function StartFlags(): Store.Flags
      reads this`plan, store
    {
      if Id() !in store.rows then Store.NO_FLAGS
      else if world.operator == [] then RowFlags() else Store.Effect(RowFlags(), world.operator[0])
    }

    /** The run is over: the record is concluded and is what the store holds, next to the operator's
        flags; an abort the operator was seen to request is the one recorded; the spend is what the
        harness had when the run began plus what this run's agents reported. */
    ghost predicate Over()
      reads this`plan, this`record, this`calls, this`log, this`carried, log, store, Ledger()
    {
      && log.Valid() && log.setup.plan == plan
      && Terminal(record.state) && record.finished && (record.abortReason.Some? <==> record.state == ABORTED)
      && log.view.at == Progress(record.state, false, Some(record.state))
      && Id() in store.rows && store.rows[Id()] == Store.Row(record, log.view.signals.flags)
      && Blamed() && log.view.cleared && log.setup.plugin == plugin && log.setup.says == Says()
      && Genuine(record.reports, log.view.filed, log.view.tagged, log.view.course.judged)
      && (harness != null ==>
            log.setup.base.Some?
            && record.invocations == harness.invocations == carried + Harness.LogAll(ActionsOf(log.view.money.made))
            && record.spend == Harness.TotalSpend(harness.invocations) == log.setup.base.value + log.view.money.spent)
      && Accounted()
    }

    /** The trace knows whether the chaos agent can clean up, shows exactly what the operator wrote in the
        batches that were due, and every call has been paid for. */
    ghost predicate Accounted()
      reads this`plan, this`calls, this`log, log
    {
      && log.setup.canCleanUp == agents.cleanup.Some? && log.setup.base.Some? == (harness != null)
      && AllPaid(log.setup, log.view)
      && calls <= |world.operator| && log.view.signals.wrote == Consumed(calls)
    }

    /** The session's `__aenter__` and `__aexit__`. */
    method EnterSession() returns (ok: bool)
      requires Sound() && session != null && session.Valid() && !session.tornDown && session.plugin == plugin
      requires session.Now(None) == PluginHost.EMPTY && session.mid == []
      modifies session
      ensures Sound() && Attached() && (if ok then InSession() else session.Unwound())
          && (ok <==> !PluginHost.SetUpRaises(plugin))
    {
      var failure := session.Enter();
      ok := failure.None?;
    }

    method ExitSession()
      requires Sound() && InSession()
      modifies session
      ensures Sound() && Attached() && session.Unwound()
    {
      session.Exit();
    }

    /** The session's scope: set-up, body, and teardown on every way out. An exception that escapes
        is turned into an abort after the teardown. */
    method RunInSession()
      requires Sound() && session != null && session.Valid() && !session.tornDown && session.plugin == plugin
      requires session.Now(None) == PluginHost.EMPTY && session.mid == []
      requires log.view.at == Progress(INITIALIZING, false, Some(INITIALIZING)) && log.view.attack == NO_ATTACK
      requires log.view.gates == Gates(true, false, false, false, false) && log.view.signals.killed.None?
          && log.view.last == None && log.view.money.checked.None?
      requires AllPaid(log.setup, log.view) && log.view.course.hooks == [] && !Pausing(log.view)
          && !Unfiled(log.setup, log.view)
      modifies this`record, this`calls, this`checks, log`trace, log`view, store, Ledger(), session
      ensures PluginHost.Stages(session.mid) == log.view.course.hooks
      ensures record.pluginRecords == session.records && log.view.gates.closed && session.Unwound() && Over()
    {
      hide Safe, Fold, Says, Explained, Genuine, Released, Harness.TotalSpend, Billed, Pending, AsksForPause,
        PluginHost.Stages, Sound, Kept, Mirrored, InSession, Settled,
        Justified, CanEnter, Persists, Broken, Stored, Over, PluginHost.PluginSession.Unwound;
      var escaped := PassSession();
      SessionIsOver();
      CloseAndReport(escaped);
    }

    lemma SessionIsOver()
      requires session != null && session.Unwound()
      ensures session.tornDown
    {
    }

    method PassSession() returns (escaped: bool)
      requires Sound() && session != null && session.Valid() && !session.tornDown && session.plugin == plugin
      requires session.Now(None) == PluginHost.EMPTY && session.mid == []
      requires log.view.at == Progress(INITIALIZING, false, Some(INITIALIZING)) && log.view.attack == NO_ATTACK
      requires log.view.gates == Gates(true, false, false, false, false) && log.view.signals.killed.None?
          && log.view.last == None && log.view.money.checked.None?
      requires AllPaid(log.setup, log.view) && log.view.course.hooks == [] && !Pausing(log.view)
          && !Unfiled(log.setup, log.view)
      modifies this`record, this`calls, this`checks, log`trace, log`view, store, Ledger(), session
      ensures Sound() && Attached() && session.Unwound() && log.view.gates.opened_ && !log.view.gates.closed
      ensures escaped ==>
        && !Terminal(log.view.at.phase) && Persists(log.view.at.saved, ABORTED) && log.view.signals.killed.None?
        && !log.view.attack.owesCleanup && Broken(log.setup, log.view)
        && !Unfiled(log.setup, log.view) && !Pausing(log.view)
      ensures !escaped ==> Stored()
    {
      hide Safe, Fold, Says, Explained, Genuine, Released, Harness.TotalSpend, Billed, Pending, AsksForPause,
        PluginHost.Stages,
        Sound, Kept, Mirrored, InSession, Settled,
        Justified, CanEnter, PluginHost.PluginSession.Tracked, PluginHost.PluginSession.Unwound;
      SetupIs();
      var ok := EnterSession();
      escaped := !ok;
      if ok {
        var step := RunBody();
        escaped := step.Escaped?;
        ExitSession();
      }
    }

    method CloseAndReport(escaped: bool)
      requires Sound() && session != null && Attached() && session.tornDown && log.view.gates.opened_
          && !log.view.gates.closed
      requires escaped ==>
        && !Terminal(log.view.at.phase) && Persists(log.view.at.saved, ABORTED) && log.view.signals.killed.None?
        && !log.view.attack.owesCleanup
        && Broken(log.setup, log.view) && !Unfiled(log.setup, log.view) && !Pausing(log.view)
      requires !escaped ==> Stored()
      modifies this`record, this`calls, log`trace, log`view, store
      ensures PluginHost.Stages(session.mid) == log.view.course.hooks
      ensures record.pluginRecords == session.records && log.view.gates.closed && Over()
    {
      hide Safe, Fold, Says, Explained, Genuine, Released, Harness.TotalSpend, Billed, Pending, AsksForPause,
        PluginHost.Stages, Sound, Kept, Mirrored, Over, Persists;
      CloseLog();
      if escaped {
        BreakageJustifies(log.setup, log.view);
        Abort(AgentFailure);
      }
      Report();
    }

    /** The terminal save has been made and agrees with what the operator was seen to request. */
    ghost predicate Stored()
      reads this`record, log, this`log, Ledger()
    {
      && Terminal(log.view.at.phase) && !log.view.at.paused && log.view.at.saved == Some(log.view.at.phase)
      && Blamed() && Settled() && log.view.cleared
    }

    /** The last save, with the plugin's teardown on record. */
    method Report()
      requires Sound() && session != null && Attached() && Stored()
      modifies this`record, this`calls, log`trace, log`view, store
      ensures PluginHost.Stages(session.mid) == log.view.course.hooks
      ensures record.pluginRecords == session.records && log.view.gates == old(log.view.gates) && Over()
    {
      hide Safe, Fold, Says, Explained, Genuine, Released, Harness.TotalSpend, Billed, Pending, AsksForPause,
        PluginHost.Stages, Justified, Sound, Kept, Mirrored, Stored, Over;
      TakeOver();
      SaveAgain();
      HooksAreOnRecord();
      IsOver();
    }

    lemma HooksAreOnRecord()
      requires Sound() && session != null
      ensures PluginHost.Stages(session.mid) == log.view.course.hooks
    {
      hide Safe, Fold, Says, Explained, Genuine, Released, Billed, PluginHost.Stages, Justified;
    }

    /** The plugin's progress goes on the record. */
    method TakeOver()
      requires Sound() && session != null && Attached() && Stored()
      modifies this`record
      ensures Sound() && Stored() && record.pluginRecords == session.records
    {
      hide Safe, Fold, Says, Explained, Genuine, Released, Harness.TotalSpend, Billed, Pending, AsksForPause,
        PluginHost.Stages, Justified;
      record := SyncPlugin(record);
    }

    method SaveAgain()
      requires Sound() && Stored()
      modifies this`calls, log`trace, log`view, store
      ensures Sound() && Stored() && store.rows[Id()].blob == record && log.view.gates == old(log.view.gates)
    {
      hide Safe, Fold, Says, Explained, Genuine, Released, Harness.TotalSpend, Billed, Pending, AsksForPause,
        PluginHost.Stages, Justified;
      Save();
    }

    lemma IsOver()
      requires Sound() && Stored() && store.rows[Id()].blob == record
      ensures Over()
    {
      hide Safe, Fold, Says, Explained, Genuine, Released, Harness.TotalSpend, Justified;
    }

    ghost method CloseLog()
      requires Sound() && log.view.gates.opened_ && !log.view.gates.closed
      modifies log`trace, log`view
      ensures Sound() && log.view == old(log.view).(gates := old(log.view).gates.(closed := true))
      ensures old(Blamed()) ==> Blamed()
    {
      hide Safe, Fold, Says, Explained, Genuine, Released, Harness.TotalSpend, Billed, Pending, AsksForPause,
        PluginHost.Stages;
      ghost var before := log.view;
      log.Close();
      if Justified(log.setup, before, record.abortReason.GetOr(UserKill)) {
        JustifiedWhenClosed(log.setup, before, record.abortReason.GetOr(UserKill));
      }
    }

    /** The gates that need no environment come before anything is provisioned. */
    method Preflight() returns (ok: bool)
      requires calls == 0 && session == null && Unblocked()
      modifies this`record, this`calls, this`log, this`carried, store
      ensures fresh(log) && log.setup.plan == plan
      ensures harness != null ==> carried == old(harness.invocations)
      ensures harness != null ==> log.setup.base == Some(Harness.TotalSpend(harness.invocations))
      ensures log.setup.flags == old(StartFlags())
      ensures !ok ==> Over() && !log.view.gates.opened_
      ensures ok ==> Sound() && PlanAllowed(plan) && log.view == WithSaved(Start(log.setup), INITIALIZING)
    {
      hide Safe, Fold, Says, Explained, Genuine, Released, Harness.TotalSpend, Billed, Pending, AsksForPause,
        PluginHost.Stages, Sound, Kept, Mirrored, Over;
      Begin();
      var fail := Safety.CheckClusterAllowed(plan.safety);
      if fail.None? {
        fail := Safety.CheckBlastRadius(plan.faults, plan.safety);
      }
      ok := fail.None?;
      if !ok {
        Reject(fail.value);
      }
    }

    method Reject(reason: AbortReason)
      requires Sound() && session == null && log.view == WithSaved(Start(log.setup), INITIALIZING)
      requires if Safety.ClusterAllowed(plan.safety) then !Safety.RadiusAllowed(plan.faults, plan.safety)
          && reason == BlastRadiusViolation
               else reason == ClusterDenied
      modifies this`record, this`calls, log`trace, log`view, store
      ensures Over() && !log.view.gates.opened_
    {
      hide Safe, Fold, Says, Genuine, Released, Harness.TotalSpend, Billed, Mirrored, Over;
      SetupIs();
      Abort(reason);
      IsOver();
    }

    method OpenSession()
      requires Sound() && PlanAllowed(plan) && log.view == WithSaved(Start(log.setup), INITIALIZING)
      modifies this`session, log`trace, log`view
      ensures Sound() && session != null && fresh(session) && session.Valid() && !session.tornDown
          && session.plugin == plugin
      ensures session.Now(None) == PluginHost.EMPTY && session.mid == []
      ensures log.view == old(log.view).(gates := Gates(true, false, false, false, false))
    {
      hide Safe, Fold, Says, Explained, Genuine, Released, Harness.TotalSpend, Billed;
      session := new PluginHost.PluginSession(plugin);
      log.Open();
    }

    /** Whatever the collaborators do, the run is over in the end, every event was allowed, and an
        opened session has been torn down with its full audit trail on the record. */
    method Run() returns (ghost closed: PluginHost.PluginSession?)
      requires calls == 0 && session == null && Unblocked()
      modifies this, store, Ledger()
      ensures Over() && plan == old(plan)
      ensures harness != null ==> log.setup.base == Some(old(Harness.TotalSpend(harness.invocations)))
      ensures log.setup.flags == old(StartFlags()) && (harness != null ==> carried == old(harness.invocations))
      ensures log.view.gates.opened_ ==>
        && closed != null && closed.plugin == plugin && closed.Unwound() && log.view.gates.closed
        && PluginHost.Stages(closed.mid) == log.view.course.hooks
        && record.pluginRecords == closed.records
    {
      hide Safe, Fold, Says, Explained, Genuine, Released, Harness.TotalSpend, Billed, Over, Sound;
      closed := null;
      var ok := Preflight();
      if ok {
        OpenSession();
        closed := session;
        RunInSession();
        session := null;
      }
    }
  }

  /** What `drive_run` gives back to the loop. */
  datatype DriveOutcome = Finished(timeline: ChaosTimeline) | TrippedGuard | Failed
}

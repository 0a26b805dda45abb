/** The plugin lifecycle host: an environment scope around a test scope, each with a stack of
    compensations, and the concurrent drive of injection, workload and guard. A plugin is a black
    box: each hook registers any compensations and may raise. Without a plugin every hook is a
    no-op. */
module PluginHost {
  import opened Prelude

  datatype Stage =
    | Validate
    | ProvisionEnv
    | AwaitReady
    | Seed
    | SetupTest
    | CaptureBaseline
    | RunTest
    | VerifyTest
    | CollectDiagnostics
    | TeardownTest
    | TeardownEnv

  datatype Status = Ok | Failed | Skipped

  /** One line of the audit trail; compensations carry their name. */
  datatype StageResult = StageResult(stage: Stage, status: Status, name: string)

  /** A cleanup callback: what it registers while it runs, and whether it then raises. */
  datatype Compensation = Compensation(name: string, defers: seq<Compensation>, raises: bool)

  datatype Script = Script(defers: seq<Compensation>, raises: bool)

  /** The tasks of a drive. */
  datatype Task = Inject | Workload | Guard

  /** What a task can raise: the signal of a tripped guard, or anything else. */
  datatype Exception = Trips | Breaks

  /** A guard's task ends in no other way than with an exception: the invariant is reported unhealthy,
      or a check raises. */
  datatype GuardScript = NoGuard | FactoryRaises | Polls(end: Exception)

  /** A workload and what it raises, if anything; a guard; the tasks that have completed by each wake-up of the
      driver; and what gets registered meanwhile, by whichever hook. */
  datatype DriveScript = DriveScript(workload: Option<Option<Exception>>, guard: GuardScript, rounds: seq<set<Task>>,
      defers: seq<Compensation>)

  /** The overridden hooks, the drive, and the verdict of the plugin's own validation. */
  datatype Plugin = Plugin(hooks: map<Stage, Script>, drive: DriveScript, verdict: Option<bool>)

  // ----- unwinding, as a function -------------------------------------------------------------

  /** Reverse registration order, where a callback is directly followed by what it registered. */
  function Order(cs: seq<Compensation>): seq<Compensation>
    decreases cs
  {
    if cs == [] then [] else Order(cs[1..]) + Unwound(cs[0])
  }

  function Unwound(c: Compensation): seq<Compensation>
    decreases c
  {
    [c] + Order(c.defers)
  }

  function Reverse<T>(s: seq<T>): seq<T> {
    if s == [] then [] else Reverse(s[1..]) + [s[0]]
  }

  /** Every compensation that registering these brings about, itself and transitively. */
  function Everything(cs: seq<Compensation>): multiset<Compensation>
    decreases cs
  {
    if cs == [] then multiset{} else multiset{cs[0]} + Everything(cs[0].defers) + Everything(cs[1..])
  }

  /** What callbacks register when each runs once, in this order, into a stack nobody unwinds. */
  function Deferred(cs: seq<Compensation>): seq<Compensation> {
    if cs == [] then [] else cs[0].defers + Deferred(cs[1..])
  }

  predicate Flat(cs: seq<Compensation>) {
    forall c | c in cs :: c.defers == []
  }

  lemma {:induction false} OrderAppend(a: seq<Compensation>, b: seq<Compensation>)
    ensures Order(a + b) == Order(b) + Order(a)
    decreases |a|
  {
    if a == [] {
      assert a + b == b && Order(b) + [] == Order(b);
    } else {
      OrderAppend(a[1..], b);
      assert (a + b)[1..] == a[1..] + b && (a + b)[0] == a[0];
      assert Order(b) + (Order(a[1..]) + Unwound(a[0])) == (Order(b) + Order(a[1..])) + Unwound(a[0]);
    }
  }

  lemma OrderOne(c: Compensation)
    ensures Order([c]) == [c] + Order(c.defers)
  {
    assert [c][1..] == [] && [] + Unwound(c) == Unwound(c);
  }

  /** One turn of the unwind loop: the top runs, then the stack holds what it registered instead. */
  lemma OrderPops(rest: seq<Compensation>, top: Compensation)
    ensures Order(rest + [top]) == [top] + Order(rest + top.defers)
  {
    OrderAppend(rest, [top]);
    OrderOne(top);
    OrderAppend(rest, top.defers);
    assert ([top] + Order(top.defers)) + Order(rest) == [top] + (Order(top.defers) + Order(rest));
  }

  lemma {:induction false} ReverseAppend<T>(a: seq<T>, b: seq<T>)
    ensures Reverse(a + b) == Reverse(b) + Reverse(a)
  {
    if a == [] {
      assert a + b == b && Reverse(b) + [] == Reverse(b);
    } else {
      ReverseAppend(a[1..], b);
      assert (a + b)[1..] == a[1..] + b && (a + b)[0] == a[0];
      assert Reverse(b) + (Reverse(a[1..]) + [a[0]]) == (Reverse(b) + Reverse(a[1..])) + [a[0]];
    }
  }

  lemma ReversePops<T>(rest: seq<T>, top: T)
    ensures Reverse(rest + [top]) == [top] + Reverse(rest)
  {
    ReverseAppend(rest, [top]);
    assert [top][1..] == [] && [] + [top] == [top];
  }

  /** Callbacks that register nothing run in reverse registration order. */
  lemma {:induction false} FlatOrderIsReverse(cs: seq<Compensation>)
    requires Flat(cs)
    ensures Order(cs) == Reverse(cs) && Deferred(Reverse(cs)) == []
  {
    if cs != [] {
      assert cs[0] in cs && forall c | c in cs[1..] :: c in cs;
      FlatOrderIsReverse(cs[1..]);
      assert Unwound(cs[0]) == [cs[0]] + [];
      DeferredAppend(Reverse(cs[1..]), [cs[0]]);
      assert [cs[0]][1..] == [];
    }
  }

  lemma {:induction false} DeferredAppend(a: seq<Compensation>, b: seq<Compensation>)
    ensures Deferred(a + b) == Deferred(a) + Deferred(b)
  {
    if a == [] {
      assert a + b == b;
    } else {
      DeferredAppend(a[1..], b);
      assert (a + b)[1..] == a[1..] + b && (a + b)[0] == a[0];
      assert a[0].defers + (Deferred(a[1..]) + Deferred(b)) == (a[0].defers + Deferred(a[1..])) + Deferred(b);
    }
  }

  lemma DeferredOne(done: seq<Compensation>, top: Compensation)
    ensures Deferred(done + [top]) == Deferred(done) + top.defers
  {
    DeferredAppend(done, [top]);
    assert [top][1..] == [] && top.defers + [] == top.defers;
  }

  /** Unwinding runs every callback that comes to be registered exactly as often as it is
      registered, however deep the registering nests. */
  lemma {:induction false} OrderRunsEverything(cs: seq<Compensation>)
    ensures multiset(Order(cs)) == Everything(cs)
    decreases cs
  {
    if cs != [] {
      OrderRunsEverything(cs[1..]);
      OrderRunsEverything(cs[0].defers);
      assert multiset(Unwound(cs[0])) == multiset{cs[0]} + Everything(cs[0].defers);
    }
  }

  lemma {:induction false} NothingDeferredIffFlat(cs: seq<Compensation>)
    ensures Deferred(cs) == [] <==> Flat(cs)
  {
    if cs != [] {
      NothingDeferredIffFlat(cs[1..]);
      assert forall c :: c in cs <==> c == cs[0] || c in cs[1..];
    }
  }

  lemma {:induction false} ReverseMembers<T>(s: seq<T>)
    ensures multiset(Reverse(s)) == multiset(s)
  {
    if s != [] {
      ReverseMembers(s[1..]);
      assert s == [s[0]] + s[1..];
    }
  }

  function Results(stage: Stage, cs: seq<Compensation>): seq<StageResult> {
    seq(|cs|, i requires 0 <= i < |cs| => StageResult(stage, if cs[i].raises then Failed else Ok, cs[i].name))
  }

  lemma ResultsGrow(stage: Stage, cs: seq<Compensation>, c: Compensation)
    ensures Results(stage, cs + [c]) == Results(stage, cs)
        + [StageResult(stage, if c.raises then Failed else Ok, c.name)]
  {
  }

  // ----- a whole teardown, as a function ------------------------------------------------------

  /** The callbacks a teardown runs: the test scope, then the environment scope. Once the test scope
      has been opened, what environment callbacks register lands on the test stack, which is closed
      by then. */
  function Unwinding(env: seq<Compensation>, test: seq<Compensation>, opened_: bool): seq<Compensation> {
    Order(test) + EnvOrder(env, opened_)
  }

  function EnvOrder(env: seq<Compensation>, opened_: bool): seq<Compensation> {
    if opened_ then Reverse(env) else Order(env)
  }

  /** What such a teardown leaves registered for good. */
  function Abandoned(env: seq<Compensation>, opened_: bool): seq<Compensation> {
    if opened_ then Deferred(Reverse(env)) else []
  }

  function Trail(env: seq<Compensation>, test: seq<Compensation>, opened_: bool): seq<StageResult> {
    Results(TeardownTest, Order(test)) + Results(TeardownEnv, EnvOrder(env, opened_))
  }

  /** One line of the audit trail for each callback that was run, under its name, with its scope's stage,
      the test scope's first, and failed exactly if the callback raised. */
  lemma TrailTellsWhatRan(env: seq<Compensation>, test: seq<Compensation>, opened_: bool)
    ensures var ran, trail := Unwinding(env, test, opened_), Trail(env, test, opened_);
            && |trail| == |ran|
            && forall k | 0 <= k < |ran| ::
                 && trail[k].name == ran[k].name && trail[k].status == (if ran[k].raises then Failed else Ok)
                 && trail[k].stage == if k < |Everything(test)| then TeardownTest else TeardownEnv
  {
    OrderRunsEverything(test);
    assert |multiset(Order(test))| == |Order(test)|;
    ResultsTell(Order(test), EnvOrder(env, opened_));
  }

  lemma ResultsTell(first: seq<Compensation>, second: seq<Compensation>)
    ensures var ran, trail := first + second, Results(TeardownTest, first) + Results(TeardownEnv, second);
            && |trail| == |ran|
            && forall k | 0 <= k < |ran| ::
                 && trail[k].name == ran[k].name && trail[k].status == (if ran[k].raises then Failed else Ok)
                 && trail[k].stage == if k < |first| then TeardownTest else TeardownEnv
  {
  }

  /** Last in, first out, across both scopes. */
  lemma FlatTeardownIsReverse(env: seq<Compensation>, test: seq<Compensation>, opened_: bool)
    requires Flat(env) && Flat(test)
    ensures Unwinding(env, test, opened_) == Reverse(env + test) && Abandoned(env, opened_) == []
  {
    FlatOrderIsReverse(env);
    FlatOrderIsReverse(test);
    ReverseAppend(env, test);
  }

  /** The exact condition: every callback that comes to be registered runs exactly once if and only
      if the test scope was never opened or no environment callback registers another. */
  lemma EverythingRunsOnceIff(env: seq<Compensation>, test: seq<Compensation>, opened_: bool)
    ensures multiset(Unwinding(env, test, opened_)) == Everything(env) + Everything(test) <==> !opened_ || Flat(env)
    ensures |Trail(env, test, opened_)| == |Unwinding(env, test, opened_)|
  {
    OrderRunsEverything(env);
    OrderRunsEverything(test);
    ReverseMembers(env);
    EverythingSize(env);
    if Flat(env) {
      FlatEverything(env);
    }
    var second := EnvOrder(env, opened_);
    assert multiset(Unwinding(env, test, opened_)) == Everything(test) + multiset(second);
    assert |Everything(test) + multiset(second)| == |Everything(test)| + |multiset(second)|;
    assert |Everything(env) + Everything(test)| == |Everything(env)| + |Everything(test)|;
    assert |multiset(env)| == |env|;
  }

  /** A compensation that the environment's teardown hook registers after a test scope was opened is
      never run. */
  lemma LateCompensationIsLost(late: Compensation)
    requires late.name != "teardown_env"
    ensures var env := [Compensation("teardown_env", [late], false)];
            late in Everything(env) && late !in Unwinding(env, [], true) && Abandoned(env, true) == [late]
  {
    var hook := Compensation("teardown_env", [late], false);
    assert hook.defers == [late] && late in Everything([late]);
    assert [hook][1..] == [] && Reverse([hook]) == [hook];
    assert Deferred([hook]) == [late] + Deferred([]);
  }

  lemma {:induction false} FlatEverything(cs: seq<Compensation>)
    requires Flat(cs)
    ensures Everything(cs) == multiset(cs)
  {
    if cs != [] {
      assert cs[0] in cs && forall c | c in cs[1..] :: c in cs;
      FlatEverything(cs[1..]);
      assert cs == [cs[0]] + cs[1..];
    }
  }

  lemma {:induction false} EverythingSize(cs: seq<Compensation>)
    ensures |Everything(cs)| >= |cs|
    ensures !Flat(cs) ==> |Everything(cs)| > |cs|
    decreases cs
  {
    if cs != [] {
      var head, rest := cs[0], cs[1..];
      EverythingSize(rest);
      EverythingSize(head.defers);
      assert |Everything(cs)| == 1 + |Everything(head.defers)| + |Everything(rest)|;
      assert head.defers == [] && Flat(rest) ==> Flat(cs) by {
        assert forall c | c in cs :: c == head || c in rest;
      }
    }
  }

  // ----- set-up, as a function ------------------------------------------------------------------

  /** The steps of entering a session: run a hook, or open a scope, which registers its teardown
      hook before any of the scope's own hooks runs. */
  datatype Step = Run(stage: Stage) | Open(teardown: Stage)

  const SCOPED_SETUP := [Run(ProvisionEnv), Run(AwaitReady), Run(Seed), Open(TeardownTest), Run(SetupTest)]
  const SETUP := [Run(Validate)] + ([Open(TeardownEnv)] + SCOPED_SETUP)

  /** Both stacks, the scope `ctx.defer` pushes to, the audit trail, and the hook that raised. */
  datatype Scopes = Scopes(env: seq<Compensation>, test: seq<Compensation>, inTest: bool, records: seq<StageResult>,
      failure: Option<Stage>)

  const EMPTY := Scopes([], [], false, [], None)

  function Pushed(s: Scopes, cs: seq<Compensation>): Scopes {
    if s.inTest then s.(test := s.test + cs) else s.(env := s.env + cs)
  }

  function Teardown(stage: Stage, script: Script): Compensation {
    Compensation(if stage == TeardownTest then "teardown_test" else "teardown_env", script.defers, script.raises)
  }

  function HookResult(p: Plugin, stage: Stage): StageResult {
    StageResult(stage, if stage !in p.hooks then Skipped else if p.hooks[stage].raises then Failed else Ok, "")
  }

  /** A hook that raises has registered its compensations first. */
  function Invoked(p: Plugin, s: Scopes, stage: Stage): Scopes {
    var pushed := if stage in p.hooks then Pushed(s, p.hooks[stage].defers) else s;
    pushed.(records := s.records + [HookResult(p, stage)], failure := if stage in p.hooks
      && p.hooks[stage].raises then Some(stage) else None)
  }

  function Opened(p: Plugin, s: Scopes, stage: Stage): Scopes {
    var inside := s.(inTest := s.inTest || stage == TeardownTest);
    if stage in p.hooks then Pushed(inside, [Teardown(stage, p.hooks[stage])]) else inside
  }

  function Advanced(p: Plugin, s: Scopes, steps: seq<Step>): Scopes
    decreases |steps|
  {
    if steps == [] || s.failure.Some? then s
    else Advanced(p, Taken(p, s, steps[0]), steps[1..])
  }

  function Taken(p: Plugin, s: Scopes, step: Step): Scopes {
    match step
    case Run(stage) => Invoked(p, s, stage)
    case Open(stage) => Opened(p, s, stage)
  }

  function SetUpOf(p: Plugin): Scopes {
    Advanced(p, EMPTY, SETUP)
  }

  lemma {:induction false} AdvancedOnlyAdds(p: Plugin, s: Scopes, steps: seq<Step>)
    ensures var t := Advanced(p, s, steps);
            && s.env <= t.env && s.test <= t.test && s.records <= t.records
            && (t.failure.None? && (s.inTest || Open(TeardownTest) in steps) ==> t.inTest)
    decreases |steps|
  {
    if steps != [] && s.failure.None? {
      AdvancedOnlyAdds(p, Taken(p, s, steps[0]), steps[1..]);
      assert forall x | x in steps :: x == steps[0] || x in steps[1..];
    }
  }

  /** The test stack is empty until the test scope opens, and starts with that scope's teardown. */
  ghost predicate TestScopeSound(p: Plugin, s: Scopes) {
    if s.inTest then TeardownTest in p.hooks ==> [Teardown(TeardownTest, p.hooks[TeardownTest])] <= s.test
      else s.test == []
  }

  lemma {:induction false} TestScopeStaysSound(p: Plugin, s: Scopes, steps: seq<Step>)
    requires TestScopeSound(p, s)
    ensures TestScopeSound(p, Advanced(p, s, steps))
    decreases |steps|
  {
    if steps != [] && s.failure.None? {
      TestScopeStaysSound(p, Taken(p, s, steps[0]), steps[1..]);
    }
  }

  lemma TakesStep(p: Plugin, s: Scopes, step: Step, rest: seq<Step>)
    requires s.failure.None?
    ensures Advanced(p, s, [step] + rest) == Advanced(p, Taken(p, s, step), rest)
  {
    assert ([step] + rest)[1..] == rest;
  }

  /** Each teardown hook whose scope was opened is on its stack, below everything the scope's own
      hooks register, whichever hook raised afterwards. Validation runs before either scope. */
  lemma TeardownHooksAreRegistered(p: Plugin)
    ensures TestScopeSound(p, SetUpOf(p)) && (SetUpOf(p).failure.None? ==> SetUpOf(p).inTest)
    ensures EnvScopeSound(p, SetUpOf(p))
  {
    TestScopeStaysSound(p, EMPTY, SETUP);
    if SetUpOf(p).failure.None? {
      assert SCOPED_SETUP[3] == Open(TeardownTest);
      OpensTestScope(p, EMPTY, SETUP);
    }
    EnvHookFirst(p, EMPTY, SCOPED_SETUP);
  }

  ghost predicate EnvScopeSound(p: Plugin, s: Scopes) {
    TeardownEnv in p.hooks && !(Validate in p.hooks && p.hooks[Validate].raises) ==>
      (if Validate in p.hooks then p.hooks[Validate].defers else [])
        + [Teardown(TeardownEnv, p.hooks[TeardownEnv])] <= s.env
  }

  lemma OpensTestScope(p: Plugin, s: Scopes, steps: seq<Step>)
    requires Open(TeardownTest) in steps && Advanced(p, s, steps).failure.None?
    ensures Advanced(p, s, steps).inTest
  {
    AdvancedOnlyAdds(p, s, steps);
  }

  lemma EnvHookFirst(p: Plugin, s: Scopes, rest: seq<Step>)
    requires s == EMPTY
    ensures EnvScopeSound(p, Advanced(p, s, [Run(Validate)] + ([Open(TeardownEnv)] + rest)))
  {
    TakesStep(p, s, Run(Validate), [Open(TeardownEnv)] + rest);
    var validated := Invoked(p, s, Validate);
    if validated.failure.None? {
      TakesStep(p, validated, Open(TeardownEnv), rest);
      var inside := Opened(p, validated, TeardownEnv);
      assert EnvScopeSound(p, inside);
      AdvancedOnlyAdds(p, inside, rest);
      PrefixGrows(p, inside, Advanced(p, inside, rest));
    }
  }

  lemma PrefixGrows(p: Plugin, s: Scopes, t: Scopes)
    requires EnvScopeSound(p, s) && s.env <= t.env
    ensures EnvScopeSound(p, t)
  {
  }

  /** What a hook registers while it runs, and the compensation that a scope opens with. */
  function Defers(p: Plugin, stage: Stage): seq<Compensation> {
    if stage in p.hooks then p.hooks[stage].defers else []
  }

  function OpensWith(p: Plugin, teardown: Stage, name: string): seq<Compensation> {
    if teardown in p.hooks then [Compensation(name, p.hooks[teardown].defers, p.hooks[teardown].raises)] else []
  }

  /** One line of the audit trail for each of these hooks, in order. */
  predicate Logs(p: Plugin, records: seq<StageResult>, stages: seq<Stage>) {
    && |records| == |stages|
    && forall i | 0 <= i < |stages| ::
         && records[i].stage == stages[i] && records[i].name == ""
         && (records[i].status == Skipped <==> stages[i] !in p.hooks)
         && (records[i].status == Failed <==> stages[i] in p.hooks && p.hooks[stages[i]].raises)
  }

  /** What the stacks hold once set-up has run the first n of its hooks. */
  function EnvAfter(p: Plugin, n: nat): seq<Compensation> {
    Defers(p, Validate)
    + (if n > 1 then OpensWith(p, TeardownEnv, "teardown_env") + Defers(p, ProvisionEnv) else [])
    + (if n > 2 then Defers(p, AwaitReady) else []) + (if n > 3 then Defers(p, Seed) else [])
  }

  function TestAfter(p: Plugin, n: nat): seq<Compensation> {
    if n > 4 then OpensWith(p, TeardownTest, "teardown_test") + Defers(p, SetupTest) else []
  }

  /** The hooks of set-up, in the order they run. */
  const HOOKS := [Validate, ProvisionEnv, AwaitReady, Seed, SetupTest]

  /** Set-up has run n of its hooks, and has failed exactly if the last of them raised. */
  ghost predicate RanHooks(p: Plugin, s: Scopes, n: nat) {
    && 1 <= n <= 5 && Logs(p, s.records, HOOKS[..n])
    && s.env == EnvAfter(p, n) && s.test == TestAfter(p, n)
    && (forall i | 0 <= i < n - 1 :: s.records[i].status != Failed)
    && s.failure == if s.records[n - 1].status == Failed then Some(HOOKS[n - 1]) else None
  }

  /** The scope that opens between hook n and the next, if one does. */
  function Entering(p: Plugin, s: Scopes, n: nat): Scopes {
    if n == 1 then Opened(p, s, TeardownEnv) else if n == 4 then Opened(p, s, TeardownTest) else s
  }

  lemma LogsMore(p: Plugin, s: Scopes, n: nat)
    requires n < 5 && Logs(p, s.records, HOOKS[..n])
    ensures var t := Invoked(p, s, HOOKS[n]);
            && Logs(p, t.records, HOOKS[..n + 1]) && |t.records| == |s.records| + 1 == n + 1
            && t.records[..n] == s.records
            && t.failure == if t.records[n].status == Failed then Some(HOOKS[n]) else None
  {
    assert HOOKS[..n + 1] == HOOKS[..n] + [HOOKS[n]];
  }

  lemma RegistersMore(p: Plugin, s: Scopes, n: nat)
    requires 1 <= n < 5 && s.env == EnvAfter(p, n) && s.test == TestAfter(p, n) && !s.inTest
    ensures var t := Invoked(p, Entering(p, s, n), HOOKS[n]);
            t.env == EnvAfter(p, n + 1) && t.test == TestAfter(p, n + 1) && t.inTest == (n == 4)
    ensures Entering(p, s, n).records == s.records
  {
    InvokedPushes(p, Entering(p, s, n), HOOKS[n]);
    StacksAfter(p, n);
    hide Invoked, EnvAfter, TestAfter, Defers;
    Appended(s.env, OpensWith(p, TeardownEnv, "teardown_env"), Defers(p, ProvisionEnv));
    Appended([], OpensWith(p, TeardownTest, "teardown_test"), Defers(p, SetupTest));
    Appended(s.env, OpensWith(p, TeardownTest, "teardown_test"), []);
  }

  lemma StacksAfter(p: Plugin, n: nat)
    requires 1 <= n < 5
    ensures EnvAfter(p, n + 1) ==
      if n == 1 then EnvAfter(p, n) + (OpensWith(p, TeardownEnv, "teardown_env") + Defers(p, ProvisionEnv))
      else if n < 4 then EnvAfter(p, n) + Defers(p, HOOKS[n]) else EnvAfter(p, n)
    ensures n < 4 ==> TestAfter(p, n + 1) == []
  {
    hide Defers, OpensWith;
  }

  lemma InvokedPushes(p: Plugin, s: Scopes, stage: Stage)
    ensures var t := Invoked(p, s, stage);
            && t.inTest == s.inTest
            && t.env == (if s.inTest then s.env else s.env + Defers(p, stage))
            && t.test == (if s.inTest then s.test + Defers(p, stage) else s.test)
  {
  }

  lemma Appended<T>(a: seq<T>, b: seq<T>, c: seq<T>)
    ensures (a + b) + c == a + (b + c) && a + [] == a && [] + a == a
  {
  }

  lemma RunsNextHook(p: Plugin, s: Scopes, n: nat)
    requires RanHooks(p, s, n) && s.failure.None? && n < 5 && !s.inTest
    ensures var t := Invoked(p, Entering(p, s, n), HOOKS[n]); RanHooks(p, t, n + 1) && t.inTest == (n == 4)
  {
    hide EnvAfter, TestAfter, Logs, Entering, Invoked;
    RegistersMore(p, s, n);
    LogsMore(p, Entering(p, s, n), n);
    var t := Invoked(p, Entering(p, s, n), HOOKS[n]);
    assert forall i | 0 <= i < n :: t.records[i] == t.records[..n][i];
  }

  /** The steps left after n hooks. */
  function StepsAfter(n: nat): seq<Step>
    requires 1 <= n <= 5
  {
    SETUP[if n == 1 then 1 else if n == 5 then 7 else n + 1..]
  }

  lemma StepsAfterStarts(p: Plugin, s: Scopes, n: nat)
    requires 1 <= n < 5 && s.failure.None?
    ensures var t := Invoked(p, Entering(p, s, n), HOOKS[n]);
            Advanced(p, s, StepsAfter(n)) == Advanced(p, t, StepsAfter(n + 1))
  {
    var stage, inside := HOOKS[n], Entering(p, s, n);
    assert StepsAfter(n) == (if n == 1 then [Open(TeardownEnv)] else if n == 4 then [Open(TeardownTest)] else [])
        + ([Run(stage)] + StepsAfter(n + 1));
    hide Invoked, Opened, StepsAfter;
    TakesStep(p, inside, Run(stage), StepsAfter(n + 1));
    if n == 1 || n == 4 {
      TakesStep(p, s, Open(if n == 1 then TeardownEnv else TeardownTest), [Run(stage)] + StepsAfter(n + 1));
    }
  }

  lemma {:induction false} TheRestRuns(p: Plugin, s: Scopes, n: nat)
    requires RanHooks(p, s, n) && (n < 5 ==> !s.inTest)
    ensures RanHooks(p, Advanced(p, s, StepsAfter(n)), |Advanced(p, s, StepsAfter(n)).records|)
    ensures Advanced(p, s, StepsAfter(n)).failure.None? ==> |Advanced(p, s, StepsAfter(n)).records| == 5
    decreases 5 - n
  {
    if s.failure.None? && n < 5 {
      hide Invoked, Entering, StepsAfter, EnvAfter, TestAfter, Logs;
      RunsNextHook(p, s, n);
      StepsAfterStarts(p, s, n);
      TheRestRuns(p, Invoked(p, Entering(p, s, n), HOOKS[n]), n + 1);
    }
  }

  /** Set-up runs validation, the environment's hooks and the test's, in this order, and stops at the
      first that raises. What a hook registers, and each scope's teardown hook before the scope's own,
      goes on the stack of its scope in the same order; a hook that raises has registered, too. */
  lemma SetUpRunsInOrder(p: Plugin)
    ensures var s := SetUpOf(p); RanHooks(p, s, |s.records|) && (s.failure.None? ==> |s.records| == 5)
  {
    ValidatesFirst(p);
    ValidatesAlone(p);
    hide RanHooks, Invoked, StepsAfter, Advanced;
    TheRestRuns(p, Invoked(p, EMPTY, Validate), 1);
  }

  lemma ValidatesFirst(p: Plugin)
    ensures SetUpOf(p) == Advanced(p, Invoked(p, EMPTY, Validate), StepsAfter(1))
  {
    assert SETUP == [Run(Validate)] + StepsAfter(1);
    hide StepsAfter, Advanced, Invoked;
    TakesStep(p, EMPTY, Run(Validate), StepsAfter(1));
  }

  lemma ValidatesAlone(p: Plugin)
    ensures var s := Invoked(p, EMPTY, Validate); RanHooks(p, s, 1) && !s.inTest
  {
    assert HOOKS[..1] == [Validate];
  }

  // ----- the drive, as a function ----------------------------------------------------------------

  datatype DriveResult = Returned | RaisedBy(task: Task) | NotStarted

  function Work(d: DriveScript): set<Task> {
    {Inject} + (if d.workload.Some? then {Workload} else {})
  }

  function Started(d: DriveScript): set<Task> {
    Work(d) + (if d.guard.Polls? then {Guard} else {})
  }

  /** The tasks that end, when they end, with an exception. A guard ends in no other way. */
  function Failing(d: DriveScript, inject: Option<Exception>): set<Task> {
    {Guard} + (if inject.Some? then {Inject} else {}) + (if WorkloadRaises(d) then {Workload} else {})
  }

  predicate WorkloadRaises(d: DriveScript) {
    d.workload.Some? && d.workload.value.Some?
  }

  function ExceptionOf(d: DriveScript, inject: Option<Exception>, task: Task): Option<Exception> {
    match task
    case Inject => inject
    case Workload => d.workload.GetOr(None)
    case Guard => if d.guard.Polls? then Some(d.guard.end) else None
  }

  /** How a drive may end. */
  ghost predicate Settled(work: set<Task>, started: set<Task>, failing: set<Task>, r: DriveResult, finished: set<Task>,
      cancelled: set<Task>) {
    && finished * cancelled == {} && finished + cancelled == started
    && !r.NotStarted?
    && (r.Returned? <==> work <= finished && finished * failing == {})
    && (r.RaisedBy? ==> r.task in finished * failing)
  }

  function DriveOf(p: Option<Plugin>): DriveScript {
    if p.Some? then p.value.drive else DriveScript(None, NoGuard, [], [])
  }

  /** Task by task: every task that is started comes to its own end or is cancelled, the guard among them
      only if it polls; the injection's result is given back exactly if injection and workload ended
      without an exception and the guard has not ended; and what is raised is a finished task's. */
  lemma SettledIff(d: DriveScript, inject: Option<Exception>, r: DriveResult, finished: set<Task>, cancelled: set<Task>)
    ensures Settled(Work(d), Started(d), Failing(d, inject), r, finished, cancelled) <==>
      && !r.NotStarted? && finished * cancelled == {} && Inject in finished + cancelled
      && (Workload in finished + cancelled <==> d.workload.Some?) && (Guard in finished + cancelled <==> d.guard.Polls?)
      && (r.Returned? <==>
            && Inject in finished && inject.None? && Guard !in finished
            && (d.workload.Some? ==> Workload in finished && d.workload.value.None?))
      && (r.RaisedBy? ==>
            && r.task in finished && (r.task == Inject ==> inject.Some?)
            && (r.task == Workload ==> d.workload.Some? && d.workload.value.Some?))
  {
    var all := finished + cancelled;
    if Inject in all && (Workload in all <==> d.workload.Some?) && (Guard in all <==> d.guard.Polls?) {
      forall t: Task ensures t in all <==> t in Started(d) {
        match t case Inject => case Workload => case Guard =>
      }
      assert all == Started(d);
    }
    assert Work(d) <= finished <==> Inject in finished && (d.workload.Some? ==> Workload in finished);
    assert finished * Failing(d, inject) == {} <==>
      Guard !in finished && (inject.Some? ==> Inject !in finished) && (WorkloadRaises(d) ==> Workload !in finished);
  }

  // ----- between set-up and teardown, as a function --------------------------------------------

  /** A hook, or the drive with the tasks that came to their own end. */
  datatype MidStep = Hooked(stage: Stage) | Driven(finished: set<Task>)

  function Resumed(p: Plugin, s: Scopes, step: MidStep): Scopes {
    match step
    case Hooked(stage) => Invoked(p, s, stage).(failure := s.failure)
    case Driven(finished) =>
      if !Concurrent(p.drive) || p.drive.guard.FactoryRaises? then s
      else Pushed(s, p.drive.defers).(records := s.records + DriveRecords(p.drive, finished))
  }

  /** The stages of these steps; the drive's is RunTest. */
  function Stages(steps: seq<MidStep>): seq<Stage> {
    seq(|steps|, i requires 0 <= i < |steps| => StageOf(steps[i]))
  }

  function StageOf(step: MidStep): Stage {
    if step.Hooked? then step.stage else RunTest
  }

  lemma StagesMore(steps: seq<MidStep>, step: MidStep)
    ensures Stages(steps + [step]) == Stages(steps) + [StageOf(step)]
  {
  }

  /** Without workload and guard, the injection is simply awaited. */
  predicate Concurrent(d: DriveScript) {
    d.workload.Some? || !d.guard.NoGuard?
  }

  function ResumedAll(p: Plugin, s: Scopes, steps: seq<MidStep>): Scopes {
    if steps == [] then s else Resumed(p, ResumedAll(p, s, steps[..|steps| - 1]), steps[|steps| - 1])
  }

  lemma ResumedMore(p: Plugin, s: Scopes, steps: seq<MidStep>, step: MidStep)
    ensures ResumedAll(p, s, steps + [step]) == Resumed(p, ResumedAll(p, s, steps), step)
  {
    assert (steps + [step])[..|steps|] == steps;
  }

  /** What a hook registers, or the drive if it has a workload or a guard to drive. */
  function DeferredBy(p: Plugin, step: MidStep): seq<Compensation> {
    match step
    case Hooked(stage) => Defers(p, stage)
    case Driven(_) =>
      if p.drive.guard.Polls? || (p.drive.workload.Some? && p.drive.guard.NoGuard?) then p.drive.defers else []
  }

  /** Each hook and each drive registers on the stack of the scope that is open, and leaves its line of
      the audit trail; a workload is on record as failed exactly if it came to its end by raising. */
  lemma EachStepRegisters(p: Plugin, s: Scopes, steps: seq<MidStep>, step: MidStep)
    ensures var t, u := ResumedAll(p, s, steps), ResumedAll(p, s, steps + [step]);
            var more := DeferredBy(p, step);
            && u.inTest == t.inTest && u.failure == t.failure
            && u.test == (if t.inTest then t.test + more else t.test)
            && u.env == (if t.inTest then t.env else t.env + more)
            && t.records <= u.records
            && match step
               case Hooked(stage) => Logs(p, u.records[|t.records|..], [stage])
               case Driven(finished) =>
                 if p.drive.workload.None? || p.drive.guard.FactoryRaises? then u.records == t.records
                 else
                   && |u.records| == |t.records| + 1 && LastOf(u.records).value.stage == RunTest
                   && LastOf(u.records).value.status ==
                        if Workload in finished && p.drive.workload.value.Some? then Failed else Ok
  {
    ResumedMore(p, s, steps, step);
    hide ResumedAll;
    var t := ResumedAll(p, s, steps);
    assert t.test + [] == t.test && t.env + [] == t.env;
  }

  lemma {:induction false} ResumedOnlyAdds(p: Plugin, s: Scopes, steps: seq<MidStep>, k: nat)
    requires k <= |steps|
    ensures var t, u := ResumedAll(p, s, steps[..k]), ResumedAll(p, s, steps);
            t.env <= u.env && t.test <= u.test && t.inTest == u.inTest
    decreases |steps| - k
  {
    if k == |steps| {
      assert steps[..k] == steps;
    } else {
      hide ResumedAll;
      assert steps[..k + 1] == steps[..k] + [steps[k]];
      EachStepRegisters(p, s, steps[..k], steps[k]);
      ResumedOnlyAdds(p, s, steps, k + 1);
    }
  }

  /** Whatever set-up or a hook or the drive has registered by the time of the teardown is run by it. */
  lemma RegisteredIsRun(p: Plugin, s: Scopes, steps: seq<MidStep>, c: Compensation)
    requires
      || c in s.env + s.test
      || exists k | 0 <= k < |steps| :: c in DeferredBy(p, steps[k])
    ensures var u := ResumedAll(p, s, steps); c in Unwinding(u.env, u.test, u.inTest)
  {
    hide ResumedAll, Order, Everything, Reverse;
    var u := ResumedAll(p, s, steps);
    if c in s.env + s.test {
      ResumedOnlyAdds(p, s, steps, 0);
      NothingResumed(p, s, steps);
      InLonger(s.env, u.env, c);
      InLonger(s.test, u.test, c);
    } else {
      var k :| 0 <= k < |steps| && c in DeferredBy(p, steps[k]);
      assert steps[..k + 1] == steps[..k] + [steps[k]];
      EachStepRegisters(p, s, steps[..k], steps[k]);
      ResumedOnlyAdds(p, s, steps, k + 1);
      InLonger(ResumedAll(p, s, steps[..k + 1]).env, u.env, c);
      InLonger(ResumedAll(p, s, steps[..k + 1]).test, u.test, c);
    }
    UnwindingRunsStacks(u.env, u.test, u.inTest, c);
  }

  lemma InLonger<T>(a: seq<T>, b: seq<T>, x: T)
    requires a <= b
    ensures x in a ==> x in b
  {
  }

  lemma NothingResumed(p: Plugin, s: Scopes, steps: seq<MidStep>)
    ensures ResumedAll(p, s, steps[..0]) == s
  {
  }

  lemma UnwindingRunsStacks(env: seq<Compensation>, test: seq<Compensation>, opened_: bool, c: Compensation)
    requires c in env || c in test
    ensures c in Unwinding(env, test, opened_)
  {
    OrderRunsEverything(env);
    OrderRunsEverything(test);
    ReverseMembers(env);
    EverythingHasRoots(env, c);
    EverythingHasRoots(test, c);
    if c in env {
      assert c in multiset(EnvOrder(env, opened_));
    } else {
      assert c in multiset(Order(test));
    }
  }

  lemma {:induction false} EverythingHasRoots(cs: seq<Compensation>, c: Compensation)
    ensures c in cs ==> c in Everything(cs)
    decreases |cs|
  {
    if cs != [] {
      EverythingHasRoots(cs[1..], c);
    }
  }

  // ----- what can go wrong in a plugin ---------------------------------------------------------------

  predicate HookRaises(p: Option<Plugin>, stage: Stage) {
    p.Some? && stage in p.value.hooks && p.value.hooks[stage].raises
  }

  predicate SetUpRaises(p: Option<Plugin>) {
    p.Some? && SetUpOf(p.value).failure.Some?
  }

  /** What the plugin's own validation finds, if it has one. */
  function VerdictOf(p: Option<Plugin>): Option<bool> {
    if p.Some? && VerifyTest in p.value.hooks then p.value.verdict else None
  }

  /** The workload or the guard signals a tripped guard. */
  predicate DriveTrips(p: Option<Plugin>) {
    DriveOf(p).workload == Some(Some(Trips)) || DriveOf(p).guard == Polls(Trips)
  }

  /** The workload or a check of the guard raises something else. */
  predicate DriveBreaks(p: Option<Plugin>) {
    DriveOf(p).workload == Some(Some(Breaks)) || DriveOf(p).guard == Polls(Breaks)
  }

  /** Whose exception it can be that a drive passes on, and who can have stopped the injection. */
  lemma SettledBlames(p: Option<Plugin>, inject: Option<Exception>, r: DriveResult, finished: set<Task>,
      cancelled: set<Task>)
    requires Settled(Work(DriveOf(p)), Started(DriveOf(p)), Failing(DriveOf(p), inject), r, finished, cancelled)
    ensures r.RaisedBy? ==>
      var x := ExceptionOf(DriveOf(p), inject, r.task);
      && x.Some? && (x == Some(Trips) ==> inject == Some(Trips) || DriveTrips(p))
      && (x == Some(Breaks) ==> inject == Some(Breaks) || DriveBreaks(p))
    ensures Inject in cancelled ==>
      && r.RaisedBy?
      && var x := ExceptionOf(DriveOf(p), inject, r.task);
         (x == Some(Trips) ==> DriveTrips(p)) && (x == Some(Breaks) ==> DriveBreaks(p))
    ensures r.Returned? ==> inject.None? && Inject !in cancelled && !WorkloadRaises(DriveOf(p))
  {
    var d := DriveOf(p);
    assert Guard !in Work(d) && Inject in Work(d) && (d.workload.Some? ==> Workload in Work(d));
    assert inject.Some? ==> Inject in Failing(d, inject);
    assert WorkloadRaises(d) ==> Workload in Failing(d, inject);
    assert Guard in finished ==> Guard in Started(d) && d.guard.Polls?;
    assert Inject in cancelled ==> Inject !in finished;
    if r.RaisedBy? {
      assert r.task in finished && r.task in Failing(d, inject);
    }
  }

  /** The tasks reported by the first n wake-ups of the driver. */
  function Reported(started: set<Task>, rounds: seq<set<Task>>, n: nat): set<Task>
    requires n <= |rounds|
  {
    if n == 0 then {} else Reported(started, rounds, n - 1) + rounds[n - 1] * started
  }

  /** Wake-up n is the first to report a failed task: each one before it reported something new and no
      failure, and left some work to be done. */
  ghost predicate FailsFirst(work: set<Task>, started: set<Task>, failing: set<Task>, rounds: seq<set<Task>>, n: nat) {
    && n < |rounds| && rounds[n] * started * failing != {}
    && forall m: nat | m <= n ::
         var before := Reported(started, rounds, m);
         && !(work <= before) && before * failing == {}
         && (m < n ==> !(rounds[m] * started <= before))
  }

  /** The first wake-up that reports a failed task decides, and without any failure the injection's result
      is given back. */
  ghost predicate Prompt(work: set<Task>, started: set<Task>, failing: set<Task>, rounds: seq<set<Task>>,
      r: DriveResult,
      finished: set<Task>) {
    && (forall n: nat | FailsFirst(work, started, failing, rounds, n) ::
          r.RaisedBy? && r.task in rounds[n] && finished == Reported(started, rounds, n + 1))
    && (work * failing == {} && (forall n | 0 <= n < |rounds| :: rounds[n] * started * failing == {}) ==> r.Returned?)
  }

  /** What has been reported is what the driver has seen, as long as every wake-up reports something, and no
      failure has been reported. */
  ghost predicate KeepsUp(work: set<Task>, started: set<Task>, failing: set<Task>, rounds: seq<set<Task>>, n: nat,
      finished: set<Task>) {
    && finished <= started && finished * failing == {}
    && (forall m: nat | FailsFirst(work, started, failing, rounds, m) :: n <= m)
    && (n <= |rounds| && (forall m: nat | m < n :: !(rounds[m] * started <= Reported(started, rounds, m))) ==>
          finished == Reported(started, rounds, n))
  }

  lemma WakesUp(work: set<Task>, started: set<Task>, failing: set<Task>, rounds: seq<set<Task>>, n: nat,
      finished: set<Task>, pending: set<Task>, done: set<Task>)
    requires KeepsUp(work, started, failing, rounds, n, finished) && pending == started - finished
        && !(work <= finished)
    requires done == if n < |rounds| && rounds[n] * pending != {} then rounds[n] * pending else work * pending
    ensures done * failing == {} ==> KeepsUp(work, started, failing, rounds, n + 1, finished + done)
    ensures forall t | t in done * failing :: Prompt(work, started, failing, rounds, RaisedBy(t), finished + done)
  {
    if done * failing == {} {
      forall m: nat | FailsFirst(work, started, failing, rounds, m) ensures n + 1 <= m {
        if m == n {
          FailureIsSeen(work, started, failing, rounds, n, finished, pending, m);
        }
      }
      if n < |rounds| {
        assert finished + rounds[n] * pending == finished + rounds[n] * started;
      }
    } else {
      forall t | t in done * failing ensures Prompt(work, started, failing, rounds, RaisedBy(t), finished + done) {
        forall m: nat | FailsFirst(work, started, failing, rounds, m)
          ensures t in rounds[m] && finished + done == Reported(started, rounds, m + 1)
        {
          FailureIsSeen(work, started, failing, rounds, n, finished, pending, m);
        }
        assert t in work * failing || (n < |rounds| && t in rounds[n] * started * failing);
      }
    }
  }

  /** No wake-up later than this one is the first to report a failure that this one reports. */
  lemma FailureIsSeen(work: set<Task>, started: set<Task>, failing: set<Task>, rounds: seq<set<Task>>, n: nat,
      finished: set<Task>, pending: set<Task>, m: nat)
    requires KeepsUp(work, started, failing, rounds, n, finished) && pending == started - finished
    requires FailsFirst(work, started, failing, rounds, m)
    ensures n <= m < |rounds| && rounds[n] * pending != {}
        && finished + rounds[n] * pending == Reported(started, rounds, n + 1)
    ensures rounds[n] * pending * failing == {} <==> n < m
  {
    assert finished == Reported(started, rounds, n);
    assert finished + rounds[n] * pending == finished + rounds[n] * started;
    forall t ensures t in rounds[n] * pending * failing <==> t in rounds[n] * started * failing {
      assert t in finished && t in failing ==> t in finished * failing;
    }
    assert rounds[n] * pending * failing == rounds[n] * started * failing;
    if n < m {
      assert Reported(started, rounds, n + 1) * failing == {};
      assert rounds[n] * started * failing <= Reported(started, rounds, n + 1) * failing;
      assert rounds[n] * pending != {};
    }
  }

  lemma WorkIsDone(work: set<Task>, started: set<Task>, failing: set<Task>, rounds: seq<set<Task>>, n: nat,
      finished: set<Task>)
    requires KeepsUp(work, started, failing, rounds, n, finished) && work <= finished
    ensures Prompt(work, started, failing, rounds, Returned, finished)
    ensures Settled(work, started, failing, Returned, finished, started - finished)
  {
  }

  lemma InjectionAlone(d: DriveScript, inject: Option<Exception>)
    requires !Concurrent(d)
    ensures var r := if inject.Some? then RaisedBy(Inject) else Returned;
            && Settled(Work(d), Started(d), Failing(d, inject), r, {Inject}, {})
            && Prompt(Work(d), Started(d), Failing(d, inject), [], r, {Inject})
  {
  }

  // ----- the session ------------------------------------------------------------------------------

  class PluginSession {
    const plugin: Option<Plugin>
    var records: seq<StageResult>
    var envStack: seq<Compensation>
    var testStack: seq<Compensation>
    /** Which stack `ctx.defer` pushes on. */
    var inTest: bool
    var tornDown: bool
    var verifyResult: Option<bool>
    /** Every callback that has run, in order. */
    ghost var ran: seq<Compensation>
    /** What happened between set-up and teardown, in order. */
    ghost var mid: seq<MidStep>

    /** The session has been set up, and the stacks hold what set-up and the hooks since registered. */
    ghost predicate Tracked()
      reads this
    {
      && !tornDown
      && (plugin.Some? ==>
        Now(None) == ResumedAll(plugin.value, SetUpOf(plugin.value), mid) && SetUpOf(plugin.value).failure.None?)
    }

    /** Teardown ran what set-up and the hooks since had registered, in the order of the two stacks, and
        recorded it behind their own results. */
    ghost predicate Unwound()
      reads this
    {
      && tornDown
      && (plugin.Some? ==>
            var s := ResumedAll(plugin.value, SetUpOf(plugin.value), mid);
            ran == Unwinding(s.env, s.test, s.inTest) && records == s.records + Trail(s.env, s.test, s.inTest))
    }

    ghost predicate Valid()
      reads this
    {
      && (!tornDown ==> ran == [])
      && (!inTest ==> testStack == [])
      && (plugin.None? ==> records == [] && envStack == [] && testStack == [])
      && (verifyResult.Some? ==> verifyResult == VerdictOf(plugin))
    }

    constructor (plugin: Option<Plugin>)
      ensures this.plugin == plugin && Valid() && !tornDown && !inTest
      ensures records == [] && envStack == [] && testStack == [] && verifyResult == None && mid == []
    {
      this.plugin := plugin;
      records, envStack, testStack, inTest, tornDown, verifyResult := [], [], [], false, false, None;
      ran, mid := [], [];
    }

    /** `ctx.defer`, once per compensation. */
    method Register(cs: seq<Compensation>)
      requires Valid() && plugin.Some?
      modifies this`envStack, this`testStack
      ensures Valid()
      ensures testStack == if inTest then old(testStack) + cs else old(testStack)
      ensures envStack == if inTest then old(envStack) else old(envStack) + cs
    {
      if inTest {
        testStack := testStack + cs;
      } else {
        envStack := envStack + cs;
      }
    }

    ghost function Now(failure: Option<Stage>): Scopes
      reads this
    {
      Scopes(envStack, testStack, inTest, records, failure)
    }

    /** Runs one hook and records it; `ok` is false when it raised. */
    method Invoke(stage: Stage) returns (ok: bool)
      requires Valid() && plugin.Some?
      modifies this`envStack, this`testStack, this`records
      ensures Valid() && (ok <==> !HookRaises(plugin, stage))
      ensures Now(if ok then None else Some(stage)) == Invoked(plugin.value, old(Now(None)), stage)
    {
      hide VerdictOf;
      if stage !in plugin.value.hooks {
        records := records + [StageResult(stage, Skipped, "")];
        return true;
      }
      var script := plugin.value.hooks[stage];
      Register(script.defers);
      ok := !script.raises;
      records := records + [StageResult(stage, if ok then Ok else Failed, "")];
    }

    method OpenScope(stage: Stage)
      requires Valid() && plugin.Some?
      modifies this`envStack, this`testStack, this`inTest
      ensures Valid() && Now(None) == Opened(plugin.value, old(Now(None)), stage)
    {
      inTest := inTest || stage == TeardownTest;
      if stage in plugin.value.hooks {
        Register([Teardown(stage, plugin.value.hooks[stage])]);
      }
    }

    /** Takes the set-up steps up to the first hook that raises. */
    method SetUp(steps: seq<Step>) returns (failure: Option<Stage>)
      requires Valid() && plugin.Some?
      modifies this`envStack, this`testStack, this`records, this`inTest
      ensures Valid() && Now(failure) == Advanced(plugin.value, old(Now(None)), steps)
    {
      for n := 0 to |steps|
        invariant Valid()
        invariant Advanced(plugin.value, old(Now(None)), steps) == Advanced(plugin.value, Now(None), steps[n..])
      {
        assert steps[n..][0] == steps[n] && steps[n..][1..] == steps[n + 1..];
        match steps[n] {
          case Run(stage) =>
            var ok := Invoke(stage);
            if !ok {
              return Some(stage);
            }
          case Open(stage) =>
            OpenScope(stage);
        }
      }
      assert steps[|steps|..] == [];
      failure := None;
    }

    /** `__aenter__`: when a hook raises, everything registered so far is unwound before that
        hook's failure is passed on. */
    method Enter() returns (failure: Option<Stage>)
      requires Valid() && !tornDown && Now(None) == EMPTY && mid == []
      modifies this
      ensures Valid() && verifyResult == old(verifyResult) && (tornDown <==> failure.Some?)
      ensures mid == [] && if failure.None? then Tracked() else Unwound()
      ensures plugin.None? ==> failure.None? && Now(None) == EMPTY
      ensures plugin.Some? ==>
        var s := SetUpOf(plugin.value);
        && failure == s.failure
        && (failure.None? ==> Now(None) == s)
        && (failure.Some? ==>
          ran == Unwinding(s.env, s.test, s.inTest) && records == s.records + Trail(s.env, s.test, s.inTest))
    {
      if plugin.None? {
        return None;
      }
      failure := SetUp(SETUP);
      if failure.Some? {
        TearDown();
      }
    }

    /** `__aexit__`. */
    method Exit()
      requires Valid() && !tornDown
      modifies this
      ensures Valid() && tornDown && verifyResult == old(verifyResult) && mid == old(mid)
      ensures ran == Unwinding(old(envStack), old(testStack), old(inTest))
      ensures records == old(records) + Trail(old(envStack), old(testStack), old(inTest))
      ensures envStack == [] && testStack == Abandoned(old(envStack), old(inTest))
      ensures old(Tracked()) ==> Unwound()
    {
      TearDown();
    }

    /** Runs one callback and records it; an exception is recorded and swallowed. */
    method RunTeardown(stage: Stage, c: Compensation)
      requires Valid() && plugin.Some? && tornDown
      modifies this`envStack, this`testStack, this`records, this`ran
      ensures Valid() && ran == old(ran) + [c]
      ensures records == old(records) + [StageResult(stage, if c.raises then Failed else Ok, c.name)]
      ensures testStack == if inTest then old(testStack) + c.defers else old(testStack)
      ensures envStack == if inTest then old(envStack) else old(envStack) + c.defers
    {
      Register(c.defers);
      records := records + [StageResult(stage, if c.raises then Failed else Ok, c.name)];
      ran := ran + [c];
    }

    method TearDown()
      requires Valid() && !tornDown
      modifies this
      ensures Valid() && tornDown && verifyResult == old(verifyResult) && inTest == old(inTest) && mid == old(mid)
      ensures ran == Unwinding(old(envStack), old(testStack), old(inTest))
      ensures records == old(records) + Trail(old(envStack), old(testStack), old(inTest))
      ensures envStack == [] && testStack == Abandoned(old(envStack), old(inTest))
    {
      tornDown := true;
      CloseTestStack();
      CloseEnvStack();
      assert testStack == [] + Abandoned(old(envStack), inTest);
    }

    method CloseTestStack()
      requires Valid() && tornDown
      modifies this`envStack, this`testStack, this`records, this`ran
      ensures Valid() && testStack == [] && envStack == old(envStack)
      ensures ran == old(ran) + Order(old(testStack))
      ensures records == old(records) + Results(TeardownTest, Order(old(testStack)))
    {
      ghost var done: seq<Compensation>, todo := [], Order(testStack);
      while testStack != []
        invariant Valid() && envStack == old(envStack)
        invariant todo == Order(testStack) && done + todo == Order(old(testStack))
        invariant ran == old(ran) + done && records == old(records) + Results(TeardownTest, done)
        decreases |todo|
      {
        var top := testStack[|testStack| - 1];
        Pops(testStack, false);
        testStack := testStack[..|testStack| - 1];
        RunTeardown(TeardownTest, top);
        Grows(TeardownTest, old(ran), old(records), done, todo, top);
        done, todo := done + [top], todo[1..];
      }
      assert done + [] == done;
    }

    method CloseEnvStack()
      requires Valid() && tornDown
      modifies this`envStack, this`testStack, this`records, this`ran
      ensures Valid() && envStack == []
      ensures ran == old(ran) + EnvOrder(old(envStack), inTest)
      ensures records == old(records) + Results(TeardownEnv, EnvOrder(old(envStack), inTest))
      ensures testStack == old(testStack) + Abandoned(old(envStack), inTest)
    {
      ghost var done: seq<Compensation>, todo := [], EnvOrder(envStack, inTest);
      while envStack != []
        invariant Valid()
        invariant todo == EnvOrder(envStack, inTest) && done + todo == EnvOrder(old(envStack), inTest)
        invariant ran == old(ran) + done && records == old(records) + Results(TeardownEnv, done)
        invariant testStack == if inTest then old(testStack) + Deferred(done) else old(testStack)
        decreases |todo|
      {
        var top := envStack[|envStack| - 1];
        Pops(envStack, inTest);
        envStack := envStack[..|envStack| - 1];
        RunTeardown(TeardownEnv, top);
        Grows(TeardownEnv, old(ran), old(records), done, todo, top);
        DeferredOne(done, top);
        Associative(old(testStack), Deferred(done), top.defers);
        done, todo := done + [top], todo[1..];
      }
      assert done + [] == done;
    }

    /** A failing hook records its own result and its exception passes through. */
    method MidRun(stage: Stage) returns (ok: bool)
      requires Valid() && !tornDown
      modifies this`envStack, this`testStack, this`records, this`mid
      ensures Valid() && mid == old(mid) + [Hooked(stage)]
      ensures old(Tracked()) ==> Tracked()
      ensures plugin.None? ==> ok && Now(None) == old(Now(None))
      ensures plugin.Some? ==> Now(if ok then None else Some(stage)) == Invoked(plugin.value, old(Now(None)), stage)
    {
      ok := true;
      if plugin.Some? {
        ok := Invoke(stage);
        ResumedMore(plugin.value, SetUpOf(plugin.value), mid, Hooked(stage));
      }
      mid := mid + [Hooked(stage)];
    }

    /** The plugin's own verdict, if it has one. */
    method Verify() returns (verdict: Answer<Option<bool>>)
      requires Valid() && !tornDown
      modifies this`envStack, this`testStack, this`records, this`verifyResult, this`mid
      ensures Valid() && (old(Tracked()) ==> Tracked()) && mid == old(mid) + [Hooked(VerifyTest)]
      ensures verdict == if HookRaises(plugin, VerifyTest) then Raised else Answered(VerdictOf(plugin))
      ensures verifyResult == if plugin.Some? && VerifyTest in plugin.value.hooks
          && verdict.Answered? then verdict.value
                              else old(verifyResult)
    {
      var ok := MidRun(VerifyTest);
      if !ok {
        return Raised;
      }
      if plugin.None? || VerifyTest !in plugin.value.hooks {
        return Answered(None);
      }
      verifyResult := plugin.value.verdict;
      return Answered(verifyResult);
    }

    /** Injection, workload and guard side by side. `finished` are the tasks that came to their own
        end, `cancelled` those the driver stopped on the way out; nothing is left running. The
        injection's result is returned exactly when injection and workload have ended without an
        exception and the guard has not ended; otherwise a failed task's exception is raised. */
    method DriveRun(inject: Option<Exception>) returns (r: DriveResult, finished: set<Task>, cancelled: set<Task>)
      requires Valid() && !tornDown
      modifies this`envStack, this`testStack, this`records, this`mid
      ensures Valid() && (old(Tracked()) ==> Tracked())
      ensures r.NotStarted? <==> Drive().guard.FactoryRaises?
      ensures r.NotStarted? ==> finished == cancelled == {}
      ensures !r.NotStarted? ==> Settled(Work(Drive()), Started(Drive()), Failing(Drive(), inject), r, finished,
          cancelled)
      ensures records == old(records) + DriveRecords(Drive(), finished) && mid == old(mid) + [Driven(finished)]
      ensures !r.NotStarted? ==> Prompt(Work(Drive()), Started(Drive()), Failing(Drive(), inject),
          if Concurrent(Drive()) then Drive().rounds else [], r, finished)
    {
      hide SetUpOf, ResumedAll, Settled, Prompt;
      if plugin.None? || !Concurrent(plugin.value.drive) {
        r, finished, cancelled := if inject.Some? then RaisedBy(Inject) else Returned, {Inject}, {};
        InjectionAlone(Drive(), inject);
      } else if plugin.value.drive.guard.FactoryRaises? {
        r, finished, cancelled := NotStarted, {}, {};
      } else {
        Register(plugin.value.drive.defers);
        var drive := plugin.value.drive;
        r, finished, cancelled := Await(Work(drive), Started(drive), Failing(drive, inject), drive.rounds);
        if drive.workload.Some? {
          var failed := Workload in finished && drive.workload.value.Some?;
          records := records + [StageResult(RunTest, if failed then Failed else Ok, "")];
        }
      }
      if plugin.Some? {
        ResumedMore(plugin.value, SetUpOf(plugin.value), mid, Driven(finished));
      }
      mid := mid + [Driven(finished)];
    }

    /** Waits for completions until all work is done or a failure is seen, then cancels the rest. The
        first wake-up that reports a failed task decides; which of several it reports is seen first
        is arbitrary. */
    static method Await(work: set<Task>, started: set<Task>, failing: set<Task>, rounds: seq<set<Task>>)
      returns (r: DriveResult, finished: set<Task>, cancelled: set<Task>)
      requires work <= started
      ensures Settled(work, started, failing, r, finished, cancelled) && !r.NotStarted?
      ensures Prompt(work, started, failing, rounds, r, finished)
    {
      hide KeepsUp, Prompt, Settled;
      r, finished := Returned, {};
      var pending, n := started, 0;
      StartsUp(work, started, failing, rounds);
      while !(work <= finished)
        invariant pending == started - finished && finished <= started && finished * failing == {}
        invariant KeepsUp(work, started, failing, rounds, n, finished)
        decreases |pending|
      {
        var done := if n < |rounds| then rounds[n] * pending else {};
        // When the schedule has nothing to offer, the work that is left completes by itself.
        if done == {} {
          done := work * pending;
        }
        MovesOver(work, started, failing, finished, pending, done);
        WakesUp(work, started, failing, rounds, n, finished, pending, done);
        n := n + 1;
        finished, pending := finished + done, pending - done;
        var seen := done * failing;
        if seen != {} {
          var t :| t in seen;
          return RaisedBy(t), finished, pending;
        }
      }
      cancelled := pending;
      WorkIsDone(work, started, failing, rounds, n, finished);
    }

    /** The plugin's drive; without a plugin there is neither workload nor guard. */
    ghost function Drive(): DriveScript {
      DriveOf(plugin)
    }
  }

  lemma StartsUp(work: set<Task>, started: set<Task>, failing: set<Task>, rounds: seq<set<Task>>)
    ensures KeepsUp(work, started, failing, rounds, 0, {})
  {
  }

  lemma MovesOver(work: set<Task>, started: set<Task>, failing: set<Task>, finished: set<Task>, pending: set<Task>,
      done: set<Task>)
    requires work <= started && pending == started - finished && finished <= started && !(work <= finished)
    requires done <= pending && (done == {} ==> work * pending == {}) && finished * failing == {}
    ensures |pending - done| < |pending|
    ensures pending - done == started - (finished + done) && finished + done <= started
    ensures done * failing == {} ==> (finished + done) * failing == {}
    ensures forall t | t in done * failing ::
        Settled(work, started, failing, RaisedBy(t), finished + done, pending - done)
  {
    var t :| t in work && t !in finished;
    assert t in work * pending;
    assert pending == (pending - done) + done;
    assert |pending| == |pending - done| + |done|;
  }

  /** The workload's line of the audit trail. A workload that was cancelled is on record as ok. */
  function DriveRecords(d: DriveScript, finished: set<Task>): seq<StageResult> {
    if d.workload.None? || d.guard.FactoryRaises? then []
    else [StageResult(RunTest, if Workload in finished && d.workload.value.Some? then Failed else Ok, "")]
  }

  lemma Associative<T>(a: seq<T>, b: seq<T>, c: seq<T>)
    ensures (a + b) + c == a + (b + c)
  {
  }

  lemma Grows(stage: Stage, ran: seq<Compensation>, records: seq<StageResult>, done: seq<Compensation>,
      todo: seq<Compensation>, top: Compensation)
    requires todo != [] && todo[0] == top
    ensures (ran + done) + [top] == ran + (done + [top])
    ensures (records + Results(stage, done)) + [StageResult(stage, if top.raises then Failed else Ok, top.name)]
         == records + Results(stage, done + [top])
    ensures (done + [top]) + todo[1..] == done + todo
  {
    ResultsGrow(stage, done, top);
    assert [top] + todo[1..] == todo;
  }

  /** One turn of an unwind loop takes the first of what is still to run. */
  lemma Pops(stack: seq<Compensation>, opened_: bool)
    requires stack != []
    ensures var top, rest, todo := stack[|stack| - 1], stack[..|stack| - 1], EnvOrder(stack, opened_);
            && todo != [] && todo[0] == top
            && todo[1..] == EnvOrder(if opened_ then rest else rest + top.defers, opened_)
  {
    var top, rest := stack[|stack| - 1], stack[..|stack| - 1];
    assert stack == rest + [top];
    if opened_ {
      ReversePops(rest, top);
      assert ([top] + Reverse(rest))[1..] == Reverse(rest);
    } else {
      OrderPops(rest, top);
      assert ([top] + Order(rest + top.defers))[1..] == Order(rest + top.defers);
    }
  }
}

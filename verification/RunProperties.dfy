/** What follows for a run from every one of its events having been allowed. */
module RunProperties {
  import opened Contracts
  import opened Prelude
  import opened RunTrace
  import PluginHost
  import Safety
  import Store

  /** No agent has been called between the two events. */
  predicate Undisturbed(trace: seq<Event>, j: nat, k: nat)
    requires k <= |trace|
  {
    forall i | j < i < k :: !trace[i].Started?
  }

  /** The last reading of the operator's flags before event k, with no agent call since. */
  predicate FreshPoll(trace: seq<Event>, j: nat, k: nat, f: Store.Flags)
    requires k <= |trace|
  {
    j < k && trace[j] == Polled(f) && Undisturbed(trace, j, k) && forall i | j < i < k :: !trace[i].Polled?
  }

  predicate FreshCheck(trace: seq<Event>, j: nat, k: nat, reading: (real, real))
    requires k <= |trace|
  {
    j < k && trace[j] == BudgetChecked(reading.0, reading.1) && Undisturbed(trace, j, k) && forall i | j < i < k ::
      !trace[i].BudgetChecked?
  }

  ghost predicate Seen(trace: seq<Event>, k: nat, e: Event)
    requires k <= |trace|
  {
    exists i | 0 <= i < k :: trace[i] == e
  }

  ghost predicate SeenAnnotated(trace: seq<Event>, k: nat)
    requires k <= |trace|
  {
    exists i | 0 <= i < k :: trace[i].AnnotationsRead? && Safety.Annotated(trace[i].annotations)
  }

  /** What the view knows has been seen. */
  ghost predicate GatesWitnessed(trace: seq<Event>, k: nat, v: View)
    requires k <= |trace|
  {
    && (v.gates.opened_ ==> Seen(trace, k, SessionOpened))
    && (v.gates.annotated ==> SeenAnnotated(trace, k))
    && (v.gates.steady ==> Seen(trace, k, TesterSaid(true)))
    && (v.gates.secure ==> Seen(trace, k, SecuritySaid(false)))
    && (v.tagged == Some(true) ==> Seen(trace, k, Tagged(true)))
  }

  ghost predicate PollWitnessed(trace: seq<Event>, k: nat, v: View)
    requires k <= |trace|
  {
    v.signals.polled.Some? ==> exists j | 0 <= j < k :: FreshPoll(trace, j, k, v.signals.polled.value)
  }

  ghost predicate CheckWitnessed(trace: seq<Event>, k: nat, v: View)
    requires k <= |trace|
  {
    v.money.checked.Some? ==> exists j | 0 <= j < k :: FreshCheck(trace, j, k, v.money.checked.value)
  }

  lemma FoldStep(s: Setup, trace: seq<Event>, k: nat)
    requires k < |trace|
    ensures Fold(s, trace[..k + 1]) == Next(s, Fold(s, trace[..k]), trace[k])
  {
    var more := trace[..k + 1];
    assert more[..|more| - 1] == trace[..k] && more[|more| - 1] == trace[k];
  }

  lemma NothingYet(s: Setup, trace: seq<Event>)
    ensures Fold(s, trace[..0]) == Start(s)
  {
    assert trace[..0] == [];
  }

  lemma GatesStep(s: Setup, trace: seq<Event>, k: nat, v: View)
    requires k < |trace| && GatesWitnessed(trace, k, v)
    ensures GatesWitnessed(trace, k + 1, Next(s, v, trace[k]))
  {
    hide Next, Seen, SeenAnnotated;
    var e := trace[k];
    GatesChange(s, v, e);
    SeenMore(trace, k, SessionOpened);
    SeenMore(trace, k, TesterSaid(true));
    SeenMore(trace, k, SecuritySaid(false));
    SeenMore(trace, k, Tagged(true));
    SeenAnnotatedMore(trace, k);
  }

  lemma GatesChange(s: Setup, v: View, e: Event)
    ensures var w := Next(s, v, e);
            && (w.gates.opened_ ==> v.gates.opened_ || e == SessionOpened)
            && (w.gates.annotated ==> v.gates.annotated || (e.AnnotationsRead? && Safety.Annotated(e.annotations)))
            && (w.gates.steady ==> v.gates.steady || e == TesterSaid(true))
            && (w.gates.secure ==> v.gates.secure || e == SecuritySaid(false))
            && (w.tagged == Some(true) ==> v.tagged == Some(true) || e == Tagged(true))
  {
  }

  lemma SeenMore(trace: seq<Event>, k: nat, e: Event)
    requires k < |trace|
    ensures Seen(trace, k, e) || trace[k] == e ==> Seen(trace, k + 1, e)
  {
  }

  lemma SeenAnnotatedMore(trace: seq<Event>, k: nat)
    requires k < |trace|
    ensures SeenAnnotated(trace, k) || (trace[k].AnnotationsRead? && Safety.Annotated(trace[k].annotations)) ==>
        SeenAnnotated(trace, k + 1)
  {
  }

  lemma PollStep(s: Setup, trace: seq<Event>, k: nat, v: View)
    requires k < |trace| && PollWitnessed(trace, k, v)
    ensures PollWitnessed(trace, k + 1, Next(s, v, trace[k]))
  {
    var polled := Next(s, v, trace[k]).signals.polled;
    if polled.Some? {
      if trace[k].Polled? {
        assert FreshPoll(trace, k, k + 1, polled.value);
      } else {
        var j :| 0 <= j < k && FreshPoll(trace, j, k, polled.value);
        assert FreshPoll(trace, j, k + 1, polled.value);
      }
    }
  }

  lemma CheckStep(s: Setup, trace: seq<Event>, k: nat, v: View)
    requires k < |trace| && CheckWitnessed(trace, k, v)
    ensures CheckWitnessed(trace, k + 1, Next(s, v, trace[k]))
  {
    var checked := Next(s, v, trace[k]).money.checked;
    if checked.Some? {
      if trace[k].BudgetChecked? {
        assert FreshCheck(trace, k, k + 1, checked.value);
      } else {
        var j :| 0 <= j < k && FreshCheck(trace, j, k, checked.value);
        assert FreshCheck(trace, j, k + 1, checked.value);
      }
    }
  }

  lemma {:induction false} ViewIsWitnessed(s: Setup, trace: seq<Event>, k: nat)
    requires k <= |trace|
    ensures var v := Fold(s, trace[..k]);
            GatesWitnessed(trace, k, v) && PollWitnessed(trace, k, v) && CheckWitnessed(trace, k, v)
  {
    hide Next, GatesWitnessed, PollWitnessed, CheckWitnessed;
    if k == 0 {
      NothingWitnessed(s, trace);
      assert trace[..0] == [];
    } else {
      var v := Fold(s, trace[..k - 1]);
      ViewIsWitnessed(s, trace, k - 1);
      FoldStep(s, trace, k - 1);
      GatesStep(s, trace, k - 1, v);
      PollStep(s, trace, k - 1, v);
      CheckStep(s, trace, k - 1, v);
    }
  }

  lemma NothingWitnessed(s: Setup, trace: seq<Event>)
    ensures GatesWitnessed(trace, 0, Start(s)) && PollWitnessed(trace, 0, Start(s))
        && CheckWitnessed(trace, 0, Start(s))
  {
  }

  // ----- safety of the injection and of the fix --------------------------------------------------------

  /** At event k the operator's flags and the budget have been looked at since the last agent call,
      and nothing spoke against going on. */
  ghost predicate GatesFresh(s: Setup, trace: seq<Event>, k: nat)
    requires k <= |trace|
  {
    && (exists j, f | 0 <= j < k :: FreshPoll(trace, j, k, f) && !f.abort && !f.pause)
    && (exists j, r | 0 <= j < k :: FreshCheck(trace, j, k, r) && Safety.WithinBudget(s.plan.budget, r.0, r.1))
  }

  lemma ReadyIsFresh(s: Setup, trace: seq<Event>, k: nat)
    requires k <= |trace| && Ready(s, Fold(s, trace[..k]))
    ensures GatesFresh(s, trace, k)
  {
    var v := Fold(s, trace[..k]);
    ViewIsWitnessed(s, trace, k);
    var j :| 0 <= j < k && FreshPoll(trace, j, k, v.signals.polled.value);
    var i :| 0 <= i < k && FreshCheck(trace, i, k, v.money.checked.value);
  }

  lemma SessionOpenedMeansAllowed(s: Setup, trace: seq<Event>, k: nat)
    requires Safe(s, trace) && k <= |trace| && Seen(trace, k, SessionOpened)
    ensures PlanAllowed(s.plan)
  {
    var i :| 0 <= i < k && trace[i] == SessionOpened;
    assert Allowed(s, Fold(s, trace[..i]), trace[i]);
  }

  /** What was seen to be reported is what the agents say. */
  lemma SeenMeansAllowed(s: Setup, trace: seq<Event>, k: nat)
    requires Safe(s, trace) && k <= |trace|
    ensures Seen(trace, k, TesterSaid(true)) ==> s.says.steady
    ensures Seen(trace, k, SecuritySaid(false)) ==> s.says.secure
    ensures Seen(trace, k, Tagged(true)) ==> s.says.active
    ensures SeenAnnotated(trace, k) ==> Safety.Annotated(s.says.annotations)
  {
    hide Safe, Fold, Allowed;
    forall i | 0 <= i < k
      ensures trace[i] == TesterSaid(true) ==> s.says.steady
      ensures trace[i] == SecuritySaid(false) ==> s.says.secure
      ensures trace[i] == Tagged(true) ==> s.says.active
      ensures trace[i].AnnotationsRead? ==> trace[i].annotations == s.says.annotations
    {
      AllowedAt(s, trace, i);
      SaidIsAllowed(s, Fold(s, trace[..i]), trace[i]);
    }
  }

  lemma AllowedAt(s: Setup, trace: seq<Event>, k: nat)
    requires Safe(s, trace) && k < |trace|
    ensures Allowed(s, Fold(s, trace[..k]), trace[k])
  {
    hide Allowed, Fold;
  }

  lemma SaidIsAllowed(s: Setup, v: View, e: Event)
    requires Allowed(s, v, e)
    ensures e == TesterSaid(true) ==> s.says.steady
    ensures e == SecuritySaid(false) ==> s.says.secure
    ensures e == Tagged(true) ==> s.says.active
    ensures e.AnnotationsRead? ==> e.annotations == s.says.annotations
  {
  }

  /** In every run, whatever agents, plugin and operator do: when `chaos.execute` starts, cluster and
      blast radius are allowed and a session was opened; the namespace was seen annotated if that is
      required; both baselines were seen healthy; the budget held and the operator had neither asked
      for a pause nor for an abort at the last look, which no agent call has made stale. */
  lemma ExecuteIsGuarded(s: Setup, trace: seq<Event>, k: nat)
    requires Safe(s, trace) && k < |trace| && trace[k] == Started(Execute)
    ensures PlanAllowed(s.plan) && Seen(trace, k, SessionOpened)
    ensures s.plan.safety.requireAnnotation ==> SeenAnnotated(trace, k) && Safety.Annotated(s.says.annotations)
    ensures Seen(trace, k, TesterSaid(true)) && Seen(trace, k, SecuritySaid(false)) && Healthy(s)
    ensures GatesFresh(s, trace, k)
  {
    assert Allowed(s, Fold(s, trace[..k]), trace[k]);
    SeenMeansAllowed(s, trace, k);
    ViewIsWitnessed(s, trace, k);
    ReadyIsFresh(s, trace, k);
    SessionOpenedMeansAllowed(s, trace, k);
  }

  /** The fixer is asked only when some hypothesis was found active, and only past fresh gates. */
  lemma FixerIsGuarded(s: Setup, trace: seq<Event>, k: nat)
    requires Safe(s, trace) && k < |trace| && trace[k] == Started(ProposeFix)
    ensures Seen(trace, k, Tagged(true)) && s.says.active && GatesFresh(s, trace, k)
  {
    assert Allowed(s, Fold(s, trace[..k]), trace[k]);
    SeenMeansAllowed(s, trace, k);
    ViewIsWitnessed(s, trace, k);
    ReadyIsFresh(s, trace, k);
  }

  lemma ClosedStep(s: Setup, v: View, e: Event)
    requires v.gates.closed || e == SessionClosed
    ensures Next(s, v, e).gates.closed
  {
  }

  lemma {:induction false} ClosedStays(s: Setup, trace: seq<Event>, i: nat, k: nat)
    requires i < k <= |trace| && trace[i] == SessionClosed
    ensures Fold(s, trace[..k]).gates.closed
  {
    hide Next, Fold;
    FoldStep(s, trace, k - 1);
    if i < k - 1 {
      ClosedStays(s, trace, i, k - 1);
    }
    ClosedStep(s, Fold(s, trace[..k - 1]), trace[k - 1]);
  }

  /** No agent is called before the session is opened or after it is closed, so none runs outside the
      plugin's environment. */
  lemma AgentsRunInSession(s: Setup, trace: seq<Event>, k: nat)
    requires Safe(s, trace) && k < |trace| && trace[k].Started?
    ensures Seen(trace, k, SessionOpened) && !Seen(trace, k, SessionClosed)
  {
    assert Allowed(s, Fold(s, trace[..k]), trace[k]);
    ViewIsWitnessed(s, trace, k);
    if i :| 0 <= i < k && trace[i] == SessionClosed {
      ClosedStays(s, trace, i, k);
    }
  }

  // ----- the operator's signals ---------------------------------------------------------------------------

  lemma KilledStep(s: Setup, v: View, e: Event)
    requires Allowed(s, v, e) && v.signals.killed.Some?
    ensures Next(s, v, e).signals.killed == v.signals.killed
  {
  }

  lemma KilledByPoll(s: Setup, v: View, e: Event)
    requires e.Polled? && e.flags.abort
    ensures Next(s, v, e).signals.killed == Some(e.flags.reason.GetOr(UserKill))
  {
  }

  /** A poll that sees an abort stays decisive. */
  lemma {:induction false} KilledStays(s: Setup, trace: seq<Event>, k: nat, n: nat)
    requires Safe(s, trace) && k < n <= |trace| && trace[k].Polled? && trace[k].flags.abort
    ensures Fold(s, trace[..n]).signals.killed == Some(trace[k].flags.reason.GetOr(UserKill))
  {
    hide Safe, Fold, Next, Allowed;
    FoldStep(s, trace, n - 1);
    if k < n - 1 {
      KilledStays(s, trace, k, n - 1);
      AllowedAt(s, trace, n - 1);
      KilledStep(s, Fold(s, trace[..n - 1]), trace[n - 1]);
    } else {
      KilledByPoll(s, Fold(s, trace[..k]), trace[k]);
    }
  }

  /** From then on no agent is called, the only state ever entered is ABORTED, and every save shows it
      with the reason the operator gave, or USER_KILL if none was given. */
  lemma AbortEndsTheRun(s: Setup, trace: seq<Event>, k: nat, n: nat)
    requires Safe(s, trace) && k < n < |trace| && trace[k].Polled? && trace[k].flags.abort
    ensures !trace[n].Started? && !trace[n].Hooked? && !trace[n].Polled?
    ensures trace[n].Entered? ==> trace[n].state == ABORTED
    ensures trace[n].Saved? ==> trace[n] == Saved(ABORTED, Some(trace[k].flags.reason.GetOr(UserKill)), true)
  {
    KilledStays(s, trace, k, n);
    assert Allowed(s, Fold(s, trace[..n]), trace[n]);
    PauseNeedsNoAbort(s, trace, n);
  }

  predicate PollAgrees(v: View) {
    v.signals.killed.Some? ==> v.signals.polled.Some? && v.signals.polled.value.abort
  }

  lemma PollAgreesStep(s: Setup, v: View, e: Event)
    requires Allowed(s, v, e) && PollAgrees(v)
    ensures PollAgrees(Next(s, v, e))
  {
  }

  lemma {:induction false} PauseNeedsNoAbort(s: Setup, trace: seq<Event>, n: nat)
    requires Safe(s, trace) && n <= |trace|
    ensures PollAgrees(Fold(s, trace[..n]))
  {
    hide Safe, Allowed, Fold, Next;
    if n == 0 {
      NothingYet(s, trace);
    } else {
      hide PollAgrees;
      PauseNeedsNoAbort(s, trace, n - 1);
      FoldStep(s, trace, n - 1);
      AllowedAt(s, trace, n - 1);
      PollAgreesStep(s, Fold(s, trace[..n - 1]), trace[n - 1]);
    }
  }

  function WritesIn(trace: seq<Event>): seq<Store.Write> {
    if trace == [] then []
    else WritesIn(trace[..|trace| - 1]) + (if trace[|trace| - 1].Wrote? then [trace[|trace| - 1].write] else [])
  }

  /** A terminal state on disk is the terminal state in memory. */
  predicate TerminalAgrees(v: View) {
    v.at.saved.Some? && Terminal(v.at.saved.value) ==> v.at.phase == v.at.saved.value
  }

  lemma TerminalStep(s: Setup, v: View, e: Event)
    requires Allowed(s, v, e) && TerminalAgrees(v)
    ensures TerminalAgrees(Next(s, v, e))
    ensures Terminal(v.at.phase) || e == Cleared ==> Terminal(Next(s, v, e).at.phase)
  {
  }

  lemma {:induction false} TerminalAgreesAlways(s: Setup, trace: seq<Event>, k: nat)
    requires Safe(s, trace) && k <= |trace|
    ensures TerminalAgrees(Fold(s, trace[..k]))
  {
    hide Safe, Next, Allowed, Fold;
    if k == 0 {
      NothingYet(s, trace);
    } else {
      hide TerminalAgrees;
      TerminalAgreesAlways(s, trace, k - 1);
      FoldStep(s, trace, k - 1);
      AllowedAt(s, trace, k - 1);
      TerminalStep(s, Fold(s, trace[..k - 1]), trace[k - 1]);
    }
  }

  lemma {:induction false} ClearedMeansTerminal(s: Setup, trace: seq<Event>, i: nat, k: nat)
    requires Safe(s, trace) && i < k <= |trace| && trace[i] == Cleared
    ensures Terminal(Fold(s, trace[..k]).at.phase)
  {
    hide Safe, Next, Allowed, Fold, TerminalAgrees;
    FoldStep(s, trace, k - 1);
    AllowedAt(s, trace, k - 1);
    TerminalAgreesAlways(s, trace, k - 1);
    if i < k - 1 {
      ClearedMeansTerminal(s, trace, i, k - 1);
    }
    TerminalStep(s, Fold(s, trace[..k - 1]), trace[k - 1]);
  }

  lemma FlagsStep(s: Setup, v: View, e: Event)
    requires e != Cleared
    ensures Next(s, v, e).signals.flags == Store.Effect(v.signals.flags, if e.Wrote? then [e.write] else [])
  {
    assert e.Wrote? ==> [e.write][1..] == [];
  }

  lemma {:induction false} FlagsBeforeClear(s: Setup, trace: seq<Event>, k: nat)
    requires k <= |trace| && !Seen(trace, k, Cleared)
    ensures Fold(s, trace[..k]).signals.flags == Store.Effect(s.flags, WritesIn(trace[..k]))
  {
    hide Fold, Next, WritesIn, Store.Effect, Seen;
    if k == 0 {
      NothingYet(s, trace);
      NothingWritten(s.flags, trace);
    } else {
      NotSeenBefore(trace, k, Cleared);
      FlagsBeforeClear(s, trace, k - 1);
      FoldStep(s, trace, k - 1);
      WritesStep(trace, k - 1);
      FlagsStep(s, Fold(s, trace[..k - 1]), trace[k - 1]);
      Store.EffectAppend(s.flags, WritesIn(trace[..k - 1]), if trace[k - 1].Wrote? then [trace[k - 1].write] else []);
    }
  }

  lemma NothingWritten(f: Store.Flags, trace: seq<Event>)
    ensures Store.Effect(f, WritesIn(trace[..0])) == f
  {
    assert trace[..0] == [];
  }

  lemma NotSeenBefore(trace: seq<Event>, k: nat, e: Event)
    requires 0 < k <= |trace| && !Seen(trace, k, e)
    ensures !Seen(trace, k - 1, e) && trace[k - 1] != e
  {
  }

  lemma WritesStep(trace: seq<Event>, k: nat)
    requires k < |trace|
    ensures WritesIn(trace[..k + 1]) == WritesIn(trace[..k]) + (if trace[k].Wrote? then [trace[k].write] else [])
  {
    var more := trace[..k + 1];
    assert more[..|more| - 1] == trace[..k] && more[|more| - 1] == trace[k];
  }

  lemma WroteStep(s: Setup, v: View, e: Event)
    ensures Next(s, v, e).signals.wrote == v.signals.wrote + (if e.Wrote? then [e.write] else [])
  {
  }

  lemma {:induction false} WroteIsWritesIn(s: Setup, trace: seq<Event>, k: nat)
    requires k <= |trace|
    ensures Fold(s, trace[..k]).signals.wrote == WritesIn(trace[..k])
  {
    hide Fold, Next, WritesIn;
    if k == 0 {
      NothingYet(s, trace);
      NoWriteYet(trace);
    } else {
      WroteIsWritesIn(s, trace, k - 1);
      FoldStep(s, trace, k - 1);
      WritesStep(trace, k - 1);
      WroteStep(s, Fold(s, trace[..k - 1]), trace[k - 1]);
    }
  }

  lemma NoWriteYet(trace: seq<Event>)
    ensures WritesIn(trace[..0]) == []
  {
  }

  /** What was written by an event is the beginning of what was written in all. */
  lemma {:induction false} WritesInPrefix(trace: seq<Event>, k: nat)
    requires k <= |trace|
    ensures WritesIn(trace[..k]) <= WritesIn(trace)
    decreases |trace| - k
  {
    hide WritesIn;
    if k == |trace| {
      assert trace[..k] == trace;
    } else {
      WritesStep(trace, k);
      WritesInPrefix(trace, k + 1);
    }
  }

  /** Every poll of a run sees the effect of the operator's writes so far, and of nothing else. */
  lemma PollSeesTheOperator(s: Setup, trace: seq<Event>, k: nat)
    requires Safe(s, trace) && k < |trace| && trace[k].Polled?
    ensures trace[k].flags == Store.Effect(s.flags, WritesIn(trace[..k]))
  {
    assert Allowed(s, Fold(s, trace[..k]), trace[k]);
    if i :| 0 <= i < k && trace[i] == Cleared {
      ClearedMeansTerminal(s, trace, i, k);
    }
    FlagsBeforeClear(s, trace, k);
  }

  ghost predicate AbortWritten(trace: seq<Event>, k: nat)
    requires k <= |trace|
  {
    exists i | 0 <= i < k :: trace[i].Wrote? && trace[i].write.RequestAbort?
  }

  lemma {:induction false} WrittenAborts(trace: seq<Event>, k: nat)
    requires k <= |trace|
    ensures (exists w | w in WritesIn(trace[..k]) :: w.RequestAbort?) <==> AbortWritten(trace, k)
  {
    hide WritesIn;
    if k == 0 {
      NoWriteYet(trace);
    } else {
      WrittenAborts(trace, k - 1);
      WritesStep(trace, k - 1);
      var before := WritesIn(trace[..k - 1]);
      assert forall w :: w in WritesIn(trace[..k]) <==> w in before || (trace[k - 1].Wrote? && w == trace[k - 1].write);
      assert AbortWritten(trace, k) <==>
        AbortWritten(trace, k - 1) || (trace[k - 1].Wrote? && trace[k - 1].write.RequestAbort?);
    }
  }

  /** A poll sees an abort if and only if one was on the row from the start or has been requested by then. */
  lemma PollSeesAbortIff(s: Setup, trace: seq<Event>, k: nat)
    requires Safe(s, trace) && k < |trace| && trace[k].Polled?
    ensures trace[k].flags.abort <==> s.flags.abort || AbortWritten(trace, k)
  {
    hide Safe, WritesIn;
    PollSeesTheOperator(s, trace, k);
    Store.AbortSticks(s.flags, WritesIn(trace[..k]));
    WrittenAborts(trace, k);
  }

  /** Once cleared, the flags stay clear unless the operator writes again. */
  lemma {:induction false} FlagsClearAtTheEnd(s: Setup, trace: seq<Event>, i: nat, k: nat)
    requires i < k <= |trace| && trace[i] == Cleared && forall j | i < j < k :: !trace[j].Wrote?
    ensures Fold(s, trace[..k]).signals.flags == Store.NO_FLAGS
  {
    FoldStep(s, trace, k - 1);
    if i < k - 1 {
      FlagsClearAtTheEnd(s, trace, i, k - 1);
    }
  }

  lemma ClearedOnlyByClearing(s: Setup, v: View, e: Event)
    ensures Next(s, v, e).cleared ==> v.cleared || e == Cleared
  {
  }

  lemma {:induction false} ClearedIsSeen(s: Setup, trace: seq<Event>, k: nat)
    requires k <= |trace| && Fold(s, trace[..k]).cleared
    ensures Seen(trace, k, Cleared)
  {
    hide Fold, Next;
    if k == 0 {
      NothingYet(s, trace);
    } else {
      FoldStep(s, trace, k - 1);
      ClearedOnlyByClearing(s, Fold(s, trace[..k - 1]), trace[k - 1]);
      if trace[k - 1] != Cleared {
        ClearedIsSeen(s, trace, k - 1);
      }
    }
  }

  /** A run that says so has cleared the flags, and leaves them clear unless the operator wrote later. */
  lemma FlagsAreCleared(s: Setup, trace: seq<Event>)
    requires Fold(s, trace).cleared
    ensures exists i | 0 <= i < |trace| ::
      trace[i] == Cleared && ((forall j | i < j < |trace| :: !trace[j].Wrote?) ==>
        Fold(s, trace).signals.flags == Store.NO_FLAGS)
  {
    hide Fold;
    assert trace[..|trace|] == trace;
    ClearedIsSeen(s, trace, |trace|);
    var i :| 0 <= i < |trace| && trace[i] == Cleared;
    if forall j | i < j < |trace| :: !trace[j].Wrote? {
      FlagsClearAtTheEnd(s, trace, i, |trace|);
    }
  }

  // ----- the persisted states ----------------------------------------------------------------------------------

  /** The states saved so far, pauses left out. */
  function Persisted(trace: seq<Event>): seq<ExperimentState> {
    if trace == [] then [] else Persisted(trace[..|trace| - 1]) + SavedBy(trace[|trace| - 1])
  }

  ghost predicate IsPath(p: seq<ExperimentState>) {
    && (p != [] ==> p[0] == INITIALIZING)
    && forall i | 0 <= i < |p| :: !Transient(p[i]) && (i > 0 ==> Persists(Some(p[i - 1]), p[i]))
  }

  function SavedBy(e: Event): seq<ExperimentState> {
    if e.Saved? && e.state != PAUSED then [e.state] else []
  }

  lemma SavedByAllowed(s: Setup, v: View, e: Event)
    requires Allowed(s, v, e)
    ensures SavedBy(e) == [] ==> Next(s, v, e).at.saved == v.at.saved
    ensures SavedBy(e) != [] ==>
      e.Saved? && SavedBy(e) == [e.state] && !Transient(e.state) && Persists(v.at.saved, e.state)
        && Next(s, v, e).at.saved == Some(e.state)
  {
  }

  lemma PathGrows(p: seq<ExperimentState>, state: ExperimentState)
    requires IsPath(p) && !Transient(state) && Persists(LastOf(p), state)
    ensures IsPath(p + [state]) && LastOf(p + [state]) == Some(state)
  {
    hide Persists;
    assert p == [] ==> state == INITIALIZING by { FirstIsInitial(state); }
  }

  lemma FirstIsInitial(state: ExperimentState)
    ensures Persists(None, state) ==> state == INITIALIZING
  {
  }

  lemma PersistedStep(s: Setup, v: View, e: Event, p: seq<ExperimentState>)
    requires Allowed(s, v, e) && IsPath(p) && v.at.saved == LastOf(p)
    ensures IsPath(p + SavedBy(e)) && Next(s, v, e).at.saved == LastOf(p + SavedBy(e))
  {
    hide Allowed, Next, IsPath, LastOf, SavedBy;
    SavedByAllowed(s, v, e);
    if SavedBy(e) == [] {
      assert p + [] == p;
    } else {
      PathGrows(p, e.state);
    }
  }

  lemma PersistedMore(trace: seq<Event>, k: nat)
    requires k < |trace|
    ensures Persisted(trace[..k + 1]) == Persisted(trace[..k]) + SavedBy(trace[k])
  {
    var more := trace[..k + 1];
    assert more[..|more| - 1] == trace[..k] && more[|more| - 1] == trace[k];
  }

  /** The persisted states form a path of the documented machine, starting with INITIALIZING; the
      states the record only passes through never show. */
  lemma {:induction false} PersistedStatesFormAPath(s: Setup, trace: seq<Event>, k: nat)
    requires Safe(s, trace) && k <= |trace|
    ensures IsPath(Persisted(trace[..k])) && Fold(s, trace[..k]).at.saved == LastOf(Persisted(trace[..k]))
  {
    hide Safe, Next, Allowed, Fold, Persisted, SavedBy;
    if k == 0 {
      NothingYet(s, trace);
      NothingPersisted(trace);
    } else {
      hide IsPath, LastOf;
      PersistedStatesFormAPath(s, trace, k - 1);
      FoldStep(s, trace, k - 1);
      AllowedAt(s, trace, k - 1);
      PersistedMore(trace, k - 1);
      PersistedStep(s, Fold(s, trace[..k - 1]), trace[k - 1], Persisted(trace[..k - 1]));
    }
  }

  lemma NothingPersisted(trace: seq<Event>)
    ensures Persisted(trace[..0]) == []
  {
  }

  /** PAUSED is saved only where the flags are polled, right after a poll that asked for it. */
  lemma PauseIsSavedAtPollPoints(s: Setup, trace: seq<Event>, k: nat)
    requires Safe(s, trace) && k < |trace| && trace[k].Saved? && trace[k].state == PAUSED
    ensures PollPoint(Fold(s, trace[..k]).at.phase)
    ensures exists j, f | 0 <= j < k :: FreshPoll(trace, j, k, f) && f.pause && !f.abort
  {
    assert Allowed(s, Fold(s, trace[..k]), trace[k]);
    ViewIsWitnessed(s, trace, k);
    var v := Fold(s, trace[..k]);
    var j :| 0 <= j < k && FreshPoll(trace, j, k, v.signals.polled.value);
  }

  // ----- a pause holds the run ---------------------------------------------------------------------------------

  predicate AsksToPause(e: Event) {
    e.Polled? && e.flags.pause && !e.flags.abort
  }

  lemma PauseStep(s: Setup, v: View, e: Event)
    requires Allowed(s, v, e) && Pausing(v) && !e.Polled?
    ensures Pausing(Next(s, v, e)) && !e.Started? && !e.Hooked? && !e.BudgetChecked?
        && (e.Entered? ==> e.state == PAUSED)
  {
  }

  lemma {:induction false} PauseStays(s: Setup, trace: seq<Event>, k: nat, n: nat)
    requires Safe(s, trace) && k < n <= |trace| && AsksToPause(trace[k]) && forall i | k < i < n :: !trace[i].Polled?
    ensures Pausing(Fold(s, trace[..n]))
  {
    hide Safe, Fold, Allowed, Pausing;
    FoldStep(s, trace, n - 1);
    if k < n - 1 {
      PauseStays(s, trace, k, n - 1);
      AllowedAt(s, trace, n - 1);
      PauseStep(s, Fold(s, trace[..n - 1]), trace[n - 1]);
    } else {
      PauseByPoll(s, Fold(s, trace[..k]), trace[k]);
    }
  }

  lemma PauseByPoll(s: Setup, v: View, e: Event)
    requires AsksToPause(e)
    ensures Pausing(Next(s, v, e))
  {
  }

  /** A poll that asks for a pause holds the run: until the next poll no agent is called, no hook of the
      plugin runs, no budget is checked, and no state but PAUSED is entered. */
  lemma PauseHoldsTheRun(s: Setup, trace: seq<Event>, k: nat, n: nat)
    requires Safe(s, trace) && k < n < |trace| && AsksToPause(trace[k]) && forall i | k < i < n :: !trace[i].Polled?
    ensures !trace[n].Started? && !trace[n].Hooked? && !trace[n].BudgetChecked?
    ensures trace[n].Entered? ==> trace[n].state == PAUSED
  {
    PauseStays(s, trace, k, n);
    if !trace[n].Polled? {
      hide Safe, Fold, Pausing, Allowed;
      AllowedAt(s, trace, n);
      PauseStep(s, Fold(s, trace[..n]), trace[n]);
    }
  }

  /** PAUSED has been saved before event k, and every poll since has asked for the pause. */
  ghost predicate PauseShown(trace: seq<Event>, k: nat)
    requires k <= |trace|
  {
    exists j | 0 <= j < k :: trace[j].Saved? && trace[j].state == PAUSED
      && forall i | j < i < k && trace[i].Polled? :: trace[i].flags.pause
  }

  lemma MarkedStep(s: Setup, v: View, e: Event)
    ensures Next(s, v, e).signals.marked ==>
        (e.Saved? && e.state == PAUSED) || (v.signals.marked && (e.Polled? ==> e.flags.pause))
  {
  }

  lemma ShownMore(trace: seq<Event>, k: nat)
    requires k < |trace| && PauseShown(trace, k) && (trace[k].Polled? ==> trace[k].flags.pause)
    ensures PauseShown(trace, k + 1)
  {
    var j :| 0 <= j < k && trace[j].Saved? && trace[j].state == PAUSED
      && forall i | j < i < k && trace[i].Polled? :: trace[i].flags.pause;
    assert trace[j].Saved? && trace[j].state == PAUSED;
  }

  lemma {:induction false} MarkedIsShown(s: Setup, trace: seq<Event>, k: nat)
    requires k <= |trace| && Fold(s, trace[..k]).signals.marked
    ensures PauseShown(trace, k)
  {
    hide Fold, Next;
    if k == 0 {
      NothingYet(s, trace);
    } else {
      FoldStep(s, trace, k - 1);
      MarkedStep(s, Fold(s, trace[..k - 1]), trace[k - 1]);
      if trace[k - 1].Saved? && trace[k - 1].state == PAUSED {
        assert PauseShown(trace, k);
      } else {
        MarkedIsShown(s, trace, k - 1);
        ShownMore(trace, k - 1);
      }
    }
  }

  /** Before the operator's flags are polled again, the pause is on disk. */
  lemma PauseIsShownBeforeThePoll(s: Setup, trace: seq<Event>, k: nat, n: nat)
    requires Safe(s, trace) && k < n < |trace| && AsksToPause(trace[k]) && forall i | k < i < n :: !trace[i].Polled?
    requires trace[n].Polled?
    ensures PauseShown(trace, n)
  {
    PauseStays(s, trace, k, n);
    AllowedAt(s, trace, n);
    MarkedIsShown(s, trace, n);
  }

  lemma MarkStays(s: Setup, v: View, e: Event)
    requires v.signals.marked && (e.Polled? ==> e.flags.pause)
    ensures Next(s, v, e).signals.marked
  {
  }

  lemma {:induction false} MarkedUntilLifted(s: Setup, trace: seq<Event>, j: nat, k: nat)
    requires j < k <= |trace| && trace[j].Saved? && trace[j].state == PAUSED
    requires forall i | j < i < k && trace[i].Polled? :: trace[i].flags.pause
    ensures Fold(s, trace[..k]).signals.marked
  {
    hide Fold, Next;
    FoldStep(s, trace, k - 1);
    if j < k - 1 {
      MarkedUntilLifted(s, trace, j, k - 1);
      MarkStays(s, Fold(s, trace[..k - 1]), trace[k - 1]);
    } else {
      SaveMarks(s, Fold(s, trace[..j]), trace[j]);
    }
  }

  lemma SaveMarks(s: Setup, v: View, e: Event)
    requires e.Saved? && e.state == PAUSED
    ensures Next(s, v, e).signals.marked
  {
  }

  /** One pause is saved once: between two saves of PAUSED a poll found the pause lifted. */
  lemma PauseIsSavedOnce(s: Setup, trace: seq<Event>, j: nat, k: nat)
    requires Safe(s, trace) && j < k < |trace|
    requires trace[j].Saved? && trace[j].state == PAUSED && trace[k].Saved? && trace[k].state == PAUSED
    ensures exists i | j < i < k :: trace[i].Polled? && !trace[i].flags.pause
  {
    AllowedAt(s, trace, k);
    if forall i | j < i < k && trace[i].Polled? :: trace[i].flags.pause {
      MarkedUntilLifted(s, trace, j, k);
    }
  }

  /** Where budget and flags are both looked at, the budget comes first: a poll in these states follows a
      check within the budget that no agent call has made stale. */
  lemma PollFollowsACheck(s: Setup, trace: seq<Event>, k: nat)
    requires Safe(s, trace) && k < |trace| && trace[k].Polled?
    requires var phase := Fold(s, trace[..k]).at.phase; phase == BASELINE_OK || phase == VERIFY || phase == DIAGNOSED
    ensures exists j, r | 0 <= j < k :: FreshCheck(trace, j, k, r) && Safety.WithinBudget(s.plan.budget, r.0, r.1)
  {
    var v := Fold(s, trace[..k]);
    AllowedAt(s, trace, k);
    ViewIsWitnessed(s, trace, k);
    var j :| 0 <= j < k && FreshCheck(trace, j, k, v.money.checked.value);
  }

  // ----- the plugin's hooks -------------------------------------------------------------------------------------

  function HooksIn(trace: seq<Event>): seq<PluginHost.Stage> {
    if trace == [] then [] else HooksIn(trace[..|trace| - 1]) + HookBy(trace[|trace| - 1])
  }

  function HookBy(e: Event): seq<PluginHost.Stage> {
    if e.Hooked? then [e.stage] else []
  }

  /** The beginnings of the two orders in which hooks run, whether a drive is verified or given up. */
  predicate InOrder(hooks: seq<PluginHost.Stage>) {
    hooks <= DIAGNOSED_BY_PLUGIN || hooks == DRIVEN + [PluginHost.CollectDiagnostics]
  }

  lemma HookStep(s: Setup, v: View, e: Event)
    requires Allowed(s, v, e) && InOrder(v.course.hooks)
    ensures InOrder(Next(s, v, e).course.hooks) && Next(s, v, e).course.hooks == v.course.hooks + HookBy(e)
  {
    hide CanEnter, CanSave, CanCall, CanPoll, CanEnd;
    if e.Hooked? {
      HookKeepsOrder(s, v, e.stage);
    }
  }

  lemma HookKeepsOrder(s: Setup, v: View, stage: PluginHost.Stage)
    requires CanHook(s, v, stage)
    ensures InOrder(v.course.hooks + [stage])
  {
  }

  lemma HooksMore(trace: seq<Event>, k: nat)
    requires k < |trace|
    ensures HooksIn(trace[..k + 1]) == HooksIn(trace[..k]) + HookBy(trace[k])
  {
    var more := trace[..k + 1];
    assert more[..|more| - 1] == trace[..k] && more[|more| - 1] == trace[k];
  }

  /** Between set-up and teardown the hooks run in one order: the baseline is captured, the test is driven,
      the plugin verifies, diagnostics are collected; after a tripped guard the verification is left out. */
  lemma {:induction false} HooksRunInOrder(s: Setup, trace: seq<Event>, k: nat)
    requires Safe(s, trace) && k <= |trace|
    ensures InOrder(HooksIn(trace[..k])) && Fold(s, trace[..k]).course.hooks == HooksIn(trace[..k])
  {
    hide Safe, Next, Allowed, Fold, HookBy;
    if k == 0 {
      NothingYet(s, trace);
      assert trace[..0] == [];
    } else {
      hide InOrder, HooksIn;
      HooksRunInOrder(s, trace, k - 1);
      FoldStep(s, trace, k - 1);
      AllowedAt(s, trace, k - 1);
      HooksMore(trace, k - 1);
      HookStep(s, Fold(s, trace[..k - 1]), trace[k - 1]);
    }
  }

  /** The injection is called from within the drive, after the baseline was captured; a cleanup before
      anything else of the plugin's runs. */
  lemma CallsFollowTheHooks(s: Setup, trace: seq<Event>, k: nat)
    requires Safe(s, trace) && k < |trace| && (trace[k] == Started(Execute) || trace[k] == Started(Cleanup))
    ensures HooksIn(trace[..k]) == [PluginHost.CaptureBaseline, PluginHost.RunTest]
  {
    AllowedAt(s, trace, k);
    HooksRunInOrder(s, trace, k);
  }

  // ----- every answer goes on record --------------------------------------------------------------------------

  const ANSWERING := BASELINES + VERIFICATIONS + {Diagnose, ProposeFix}

  /** An agent that has been called and answers has its answer on record, unless it was the last one. */
  ghost predicate Recorded(s: Setup, trace: seq<Event>, k: nat, v: View)
    requires k <= |trace|
  {
    forall i | 0 <= i < k && trace[i].Started? && trace[i].agent in ANSWERING && trace[i].agent !in s.says.raises ::
      trace[i].agent in v.filed || v.last == Some(trace[i].agent)
  }

  lemma RecordedStep(s: Setup, trace: seq<Event>, k: nat, v: View)
    requires k < |trace| && Allowed(s, v, trace[k]) && Recorded(s, trace, k, v)
    ensures Recorded(s, trace, k + 1, Next(s, v, trace[k]))
  {
    var e := trace[k];
    var w := Next(s, v, e);
    FiledStep(s, v, e);
    forall i | 0 <= i < k + 1 && trace[i].Started? && trace[i].agent in ANSWERING && trace[i].agent !in s.says.raises
      ensures trace[i].agent in w.filed || w.last == Some(trace[i].agent)
    {
    }
  }

  lemma FiledStep(s: Setup, v: View, e: Event)
    requires Allowed(s, v, e)
    ensures var w := Next(s, v, e);
            v.filed <= w.filed && w.last == (if e.Started? then Some(e.agent) else v.last)
    ensures e.Started? && v.last.Some? && v.last.value in ANSWERING && v.last.value !in s.says.raises ==>
        v.last.value in v.filed
  {
    hide CanEnter, CanSave, CanPoll, CanEnd, CanHook;
  }

  lemma {:induction false} RecordedAlways(s: Setup, trace: seq<Event>, k: nat)
    requires Safe(s, trace) && k <= |trace|
    ensures Recorded(s, trace, k, Fold(s, trace[..k]))
  {
    hide Safe, Next, Allowed, Fold;
    if k > 0 {
      hide Recorded;
      RecordedAlways(s, trace, k - 1);
      FoldStep(s, trace, k - 1);
      AllowedAt(s, trace, k - 1);
      RecordedStep(s, trace, k - 1, Fold(s, trace[..k - 1]));
    }
  }

  /** A run that has come to its end leaves no answer behind. */
  predicate EndFiles(s: Setup, v: View) {
    Terminal(v.at.phase) ==> !Unfiled(s, v)
  }

  lemma EndFilesStep(s: Setup, v: View, e: Event)
    requires Allowed(s, v, e) && EndFiles(s, v)
    ensures EndFiles(s, Next(s, v, e))
  {
  }

  lemma {:induction false} EndFilesAlways(s: Setup, trace: seq<Event>, k: nat)
    requires Safe(s, trace) && k <= |trace|
    ensures EndFiles(s, Fold(s, trace[..k]))
  {
    hide Safe, Next, Allowed, Fold;
    if k == 0 {
      NothingYet(s, trace);
    } else {
      hide EndFiles;
      EndFilesAlways(s, trace, k - 1);
      FoldStep(s, trace, k - 1);
      AllowedAt(s, trace, k - 1);
      EndFilesStep(s, Fold(s, trace[..k - 1]), trace[k - 1]);
    }
  }

  /** However the run ends: an agent was called and answered, so its answer is on record. */
  lemma AnswersAreOnRecord(s: Setup, trace: seq<Event>, k: nat)
    requires Safe(s, trace) && Terminal(Fold(s, trace).at.phase) && k < |trace|
    requires trace[k].Started? && trace[k].agent in ANSWERING && trace[k].agent !in s.says.raises
    ensures trace[k].agent in Fold(s, trace).filed
  {
    hide Safe, Fold;
    assert trace[..|trace|] == trace;
    RecordedAlways(s, trace, |trace|);
    EndFilesAlways(s, trace, |trace|);
  }

  // ----- the calls -----------------------------------------------------------------------------------------------

  /** The calls of a run in the order in which they came to their end. */
  function MadeIn(trace: seq<Event>): seq<Made> {
    if trace == [] then [] else MadeIn(trace[..|trace| - 1]) + MadeBy(trace[|trace| - 1])
  }

  function MadeBy(e: Event): seq<Made> {
    match e
    case Started(agent) => if agent == Execute then [] else [Made(agent, false)]
    case InjectionEnded(end, _) => [Made(Execute, end.Cut?)]
    case _ => []
  }

  lemma MadeStep(s: Setup, v: View, e: Event)
    ensures Next(s, v, e).money.made == v.money.made + MadeBy(e)
  {
  }

  lemma {:induction false} MadeIsMadeIn(s: Setup, trace: seq<Event>, k: nat)
    requires k <= |trace|
    ensures Fold(s, trace[..k]).money.made == MadeIn(trace[..k])
  {
    hide Fold, Next, MadeBy;
    if k == 0 {
      NothingYet(s, trace);
      assert trace[..0] == [];
    } else {
      MadeIsMadeIn(s, trace, k - 1);
      FoldStep(s, trace, k - 1);
      var more := trace[..k];
      assert more[..|more| - 1] == trace[..k - 1] && more[|more| - 1] == trace[k - 1];
      MadeStep(s, Fold(s, trace[..k - 1]), trace[k - 1]);
    }
  }
}

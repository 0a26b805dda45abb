/** What a run leaves in the cluster, when the chaos agent is the one that applies and deletes
    cluster resources: the run's trace says when it was started, cut off and asked to clean up, and
    the agent's own behaviour says what each of these does to the cluster. */
module RunResidue {
  import opened Contracts
  import opened Prelude
  import opened RunTrace
  import opened RunProperties
  import Chaos
  import PluginHost

  /** The awaits of an injection that runs to its end, of one that is cut off, and of a cleanup. */
  datatype Shots = Shots(full: Chaos.Oracle, cut: Chaos.Oracle, cleanup: Chaos.Oracle)

  datatype Bench = Bench(plan: Chaos.Target, reg: Chaos.Registry, shots: Shots)

  function Affected(t: Chaos.Table, e: Event, b: Bench): Chaos.Table {
    match e
    case InjectionEnded(Cut, _) => Chaos.Executed(Chaos.World(t, []), b.plan, b.reg, b.shots.cut).0.table
    case InjectionEnded(_, _) => Chaos.Executed(Chaos.World(t, []), b.plan, b.reg, b.shots.full).0.table
    case Started(Cleanup) => Chaos.Cleaned(Chaos.World(t, []), b.plan, b.shots.cleanup).0.table
    case _ => t
  }

  function ClusterAfter(t: Chaos.Table, trace: seq<Event>, b: Bench): Chaos.Table {
    if trace == [] then t else Affected(ClusterAfter(t, trace[..|trace| - 1], b), trace[|trace| - 1], b)
  }

  /** Deletes and listings succeed, and only a cut-off is a cancellation. */
  ghost predicate Conforms(shots: Shots) {
    && Chaos.DeletesSucceed(shots.full) && Chaos.NeverInterrupts(shots.full)
    && Chaos.DeletesSucceed(shots.cleanup) && Chaos.NeverInterrupts(shots.cleanup)
  }

  ghost predicate Fits(t: Chaos.Table, b: Bench) {
    Chaos.SweepableKinds(b.reg) && Chaos.NewTo(t, b.plan, b.reg)
  }

  /** The injection is cut off, and no cleanup will be asked for: it was not a tripped guard that stopped
      it, or the agent cannot clean up. */
  predicate Strays(s: Setup, e: Event) {
    e.InjectionEnded? && e.end.Cut? && !(e.drive.Tripped? && s.canCleanUp)
  }

  /** What it takes of plugin and agent for that. */
  predicate MayStray(s: Setup) {
    PluginHost.DriveBreaks(s.plugin) || (PluginHost.DriveTrips(s.plugin) && !s.canCleanUp)
  }

  /** A debt of cleanup exists only between a tripped guard and the cleanup that follows it. */
  predicate DebtSound(v: View) {
    && (v.attack.injection.None? ==> !v.attack.owesCleanup)
    && (v.attack.owesCleanup ==> v.attack.drive.Tripped? && (v.at.phase == INJECT || v.at.phase == INJECT_FAILED))
  }

  lemma DebtStep(s: Setup, v: View, e: Event)
    requires Allowed(s, v, e) && DebtSound(v)
    ensures DebtSound(Next(s, v, e))
  {
  }

  lemma {:induction false} DebtAlwaysSound(s: Setup, trace: seq<Event>, k: nat)
    requires Safe(s, trace) && k <= |trace|
    ensures DebtSound(Fold(s, trace[..k]))
  {
    if k > 0 {
      hide Next, Allowed, Fold, DebtSound;
      DebtAlwaysSound(s, trace, k - 1);
      FoldStep(s, trace, k - 1);
      DebtStep(s, Fold(s, trace[..k - 1]), trace[k - 1]);
    } else {
      assert trace[..0] == [];
    }
  }

  /** The cluster is as before, or a cleanup is still owed for at most one resource. */
  ghost predicate Residue(before: Chaos.Table, t: Chaos.Table, v: View, b: Bench) {
    && Chaos.AtMostOneLeft(before, t, b.plan, b.reg)
    && (v.attack.owesCleanup || t == before)
  }

  lemma ResidueStep(s: Setup, v: View, e: Event, before: Chaos.Table, t: Chaos.Table, b: Bench)
    requires Allowed(s, v, e) && DebtSound(v) && Residue(before, t, v, b) && !Strays(s, e)
    requires Fits(before, b) && Conforms(b.shots)
    ensures Residue(before, Affected(t, e, b), Next(s, v, e), b)
  {
    if e.InjectionEnded? {
      hide Fits, Conforms, Residue, Affected;
      InjectionResidue(s, v, e, before, t, b);
    } else if e == Started(Cleanup) {
      hide Chaos.Cleaned, Fits, Conforms;
      CleanupSettles(Chaos.World(t, []), before, b);
    } else {
      hide Fits, Conforms;
    }
  }

  lemma InjectionResidue(s: Setup, v: View, e: Event, before: Chaos.Table, t: Chaos.Table, b: Bench)
    requires Allowed(s, v, e) && DebtSound(v) && Residue(before, t, v, b) && e.InjectionEnded? && !Strays(s, e)
    requires Fits(before, b) && Conforms(b.shots)
    ensures Residue(before, Affected(t, e, b), Next(s, v, e), b)
  {
    hide Chaos.Executed, Chaos.Cleaned;
    var w := Chaos.World(t, []);
    assert t == before;
    if e.end.Cut? {
      assert e.drive.Tripped?;
      Chaos.ExecuteLeavesAtMostOne(w, b.plan, b.reg, b.shots.cut);
    } else {
      Chaos.ExecuteIsNotCancelled(w, b.plan, b.reg, b.shots.full);
      Chaos.ExecuteLeavesNothing(w, b.plan, b.reg, b.shots.full);
    }
  }

  lemma CleanupSettles(w: Chaos.World, before: Chaos.Table, b: Bench)
    requires Fits(before, b) && Conforms(b.shots) && Chaos.AtMostOneLeft(before, w.table, b.plan, b.reg)
    ensures Chaos.Cleaned(w, b.plan, b.shots.cleanup).0.table == before
  {
    Chaos.SweepsAreNotCancelled(w, b.plan, Chaos.KINDS, b.shots.cleanup);
    Chaos.CleanupOfOne(w, before, b.plan, b.reg, b.shots.cleanup);
  }

  lemma {:induction false} ResidueAlways(s: Setup, trace: seq<Event>, k: nat, before: Chaos.Table, b: Bench)
    requires Safe(s, trace) && k <= |trace| && forall i | 0 <= i < k :: !Strays(s, trace[i])
    requires Fits(before, b) && Conforms(b.shots)
    ensures Residue(before, ClusterAfter(before, trace[..k], b), Fold(s, trace[..k]), b)
  {
    if k > 0 {
      hide Next, Allowed, Fold, DebtSound, Residue, Affected, Conforms, Fits, Strays;
      ResidueAlways(s, trace, k - 1, before, b);
      DebtAlwaysSound(s, trace, k - 1);
      FoldStep(s, trace, k - 1);
      var more := trace[..k];
      assert more[..|more| - 1] == trace[..k - 1] && more[|more| - 1] == trace[k - 1];
      ResidueStep(s, Fold(s, trace[..k - 1]), trace[k - 1], before, ClusterAfter(before, trace[..k - 1], b), b);
    } else {
      assert trace[..0] == [];
    }
  }

  /** No injected fault outlives the run, on any way to its end, as long as the injection is not cut
      off without a cleanup to come. */
  lemma NoFaultOutlivesTheRun(s: Setup, trace: seq<Event>, before: Chaos.Table, b: Bench)
    requires Safe(s, trace) && Terminal(Fold(s, trace).at.phase)
    requires Fits(before, b) && Conforms(b.shots) && forall i | 0 <= i < |trace| :: !Strays(s, trace[i])
    ensures ClusterAfter(before, trace, b) == before
  {
    hide Safe, Fold, ClusterAfter;
    assert trace[..|trace|] == trace;
    ResidueAlways(s, trace, |trace|, before, b);
    DebtAlwaysSound(s, trace, |trace|);
  }

  /** That takes a workload or a guard that can break, or one that can trip next to an agent that cannot
      clean up. */
  lemma StrayNeedsACause(s: Setup, trace: seq<Event>, i: nat)
    requires Safe(s, trace) && i < |trace| && Strays(s, trace[i])
    ensures MayStray(s)
  {
    hide Safe, Fold;
    AllowedAt(s, trace, i);
  }

  /** What can be told before a run: with a plugin whose workload never raises and whose guard raises
      nothing but its own signal, and an agent that can clean up, no injected fault outlives the run. */
  lemma SoundPluginLeavesNothing(s: Setup, trace: seq<Event>, before: Chaos.Table, b: Bench)
    requires Safe(s, trace) && Terminal(Fold(s, trace).at.phase) && !MayStray(s)
    requires Fits(before, b) && Conforms(b.shots)
    ensures ClusterAfter(before, trace, b) == before
  {
    hide Safe, Fold, ClusterAfter, Strays, MayStray;
    if i :| 0 <= i < |trace| && Strays(s, trace[i]) {
      StrayNeedsACause(s, trace, i);
    }
    NoFaultOutlivesTheRun(s, trace, before, b);
  }

  // ----- exactly when ---------------------------------------------------------------------------------

  lemma QuietStep(s: Setup, v: View, e: Event, t: Chaos.Table, b: Bench)
    requires Allowed(s, v, e) && DebtSound(v)
    ensures Next(s, v, e).attack.injection.None? ==> v.attack.injection.None? && Affected(t, e, b) == t
    ensures v.attack.injection.Some? && !v.attack.owesCleanup ==>
      Affected(t, e, b) == t && Next(s, v, e).attack.injection.Some? && !Next(s, v, e).attack.owesCleanup
  {
  }

  lemma {:induction false} QuietBefore(s: Setup, trace: seq<Event>, k: nat, t: Chaos.Table, b: Bench)
    requires Safe(s, trace) && k <= |trace| && Fold(s, trace[..k]).attack.injection.None?
    ensures ClusterAfter(t, trace[..k], b) == t
  {
    if k > 0 {
      hide Safe, Next, Allowed, Fold, DebtSound, Affected, ClusterAfter;
      DebtAlwaysSound(s, trace, k - 1);
      FoldStep(s, trace, k - 1);
      AllowedAt(s, trace, k - 1);
      ClusterStep(t, trace, k - 1, b);
      QuietStep(s, Fold(s, trace[..k - 1]), trace[k - 1], t, b);
      QuietBefore(s, trace, k - 1, t, b);
    } else {
      assert trace[..0] == [];
    }
  }

  lemma ClusterStep(t: Chaos.Table, trace: seq<Event>, k: nat, b: Bench)
    requires k < |trace|
    ensures ClusterAfter(t, trace[..k + 1], b) == Affected(ClusterAfter(t, trace[..k], b), trace[k], b)
  {
    var more := trace[..k + 1];
    assert more[..|more| - 1] == trace[..k] && more[|more| - 1] == trace[k];
  }

  lemma {:induction false} QuietAfter(s: Setup, trace: seq<Event>, i: nat, k: nat, t: Chaos.Table, b: Bench)
    requires Safe(s, trace) && i < k <= |trace| && Strays(s, trace[i])
    ensures var v := Fold(s, trace[..k]); v.attack.injection.Some? && !v.attack.owesCleanup
    ensures ClusterAfter(t, trace[..k], b) == ClusterAfter(t, trace[..i + 1], b)
  {
    hide Affected, ClusterAfter, Fold, Next, Allowed, DebtSound;
    FoldStep(s, trace, k - 1);
    var v := Fold(s, trace[..k - 1]);
    if i < k - 1 {
      QuietAfter(s, trace, i, k - 1, t, b);
      DebtAlwaysSound(s, trace, k - 1);
      ClusterStep(t, trace, k - 1, b);
      QuietStep(s, v, trace[k - 1], ClusterAfter(t, trace[..k - 1], b), b);
    } else {
      StrayOwesNothing(s, v, trace[i]);
    }
  }

  lemma StrayOwesNothing(s: Setup, v: View, e: Event)
    requires Strays(s, e)
    ensures Next(s, v, e).attack == Attack(Some(Cut), e.drive, false)
  {
  }

  /** An injection that is cut off without a cleanup to come can leave its fault behind although
      every delete would have succeeded: nobody asks for a cleanup then. */
  lemma CutInjectionLeavesAFault(s: Setup, trace: seq<Event>, i: nat, before: Chaos.Table, plan: Chaos.Target,
      reg: Chaos.Registry)
    returns (shots: Shots)
    requires Safe(s, trace) && i < |trace| && Strays(s, trace[i])
    requires Chaos.NewTo(before, plan, reg) && Chaos.Admissible(plan, reg) && plan.faults != []
    ensures Conforms(shots)
    ensures ClusterAfter(before, trace, Bench(plan, reg, shots)) == before + [Chaos.Render(plan.faults[0], plan, reg)]
  {
    var fine := (c: Chaos.Call, n: nat) => Chaos.Fine;
    var w := Chaos.World(before, []);
    var cut := Chaos.CancelledInjectionLeavesFault(w, plan, reg);
    shots := Shots(fine, cut, fine);
    var b := Bench(plan, reg, shots);
    assert Allowed(s, Fold(s, trace[..i]), trace[i]);
    QuietBefore(s, trace, i, before, b);
    ClusterStep(before, trace, i, b);
    QuietAfter(s, trace, i, |trace|, before, b);
    assert trace[..|trace|] == trace;
  }

  /** The exact condition: a finished run leaves the cluster as it was, for every agent whose deletes
      succeed, if and only if the injection was not cut off without a cleanup to come. */
  lemma NoFaultOutlivesTheRunIff(s: Setup, trace: seq<Event>, before: Chaos.Table, plan: Chaos.Target,
      reg: Chaos.Registry)
    requires Safe(s, trace) && Terminal(Fold(s, trace).at.phase)
    requires Chaos.SweepableKinds(reg) && Chaos.NewTo(before, plan, reg) && Chaos.Admissible(plan, reg)
        && plan.faults != []
    ensures (forall shots: Shots | Conforms(shots) :: ClusterAfter(before, trace, Bench(plan, reg, shots)) == before)
       <==> forall i | 0 <= i < |trace| :: !Strays(s, trace[i])
  {
    hide Safe, Fold, ClusterAfter, Strays, Conforms;
    if i :| 0 <= i < |trace| && Strays(s, trace[i]) {
      var shots := CutInjectionLeavesAFault(s, trace, i, before, plan, reg);
      assert |ClusterAfter(before, trace, Bench(plan, reg, shots))| == |before| + 1;
    } else {
      forall shots: Shots | Conforms(shots) ensures ClusterAfter(before, trace, Bench(plan, reg, shots)) == before {
        NoFaultOutlivesTheRun(s, trace, before, Bench(plan, reg, shots));
      }
    }
  }
}

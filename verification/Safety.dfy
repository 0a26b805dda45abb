/** The deterministic gates in front of an injection, and the budget tracker. A gate answers with
    the reason to abort, or with nothing when it lets the run pass. */
module Safety {
  import opened Contracts
  import opened Prelude
  import opened Text

  // ----- the cluster denylist ------------------------------------------------------------------

  /** No forbidden substring occurs in the lower-cased name of the cluster context. */
  ghost predicate ClusterAllowed(c: SafetyConstraints) {
    forall f | f in c.forbidden :: !Contains(Lower(c.clusterContext), f)
  }

  function FirstForbidden(context: string, forbidden: seq<string>): (hit: Option<string>)
    ensures hit.None? <==> forall f | f in forbidden :: !Contains(context, f)
    ensures hit.Some? ==> hit.value in forbidden && Contains(context, hit.value)
  {
    if forbidden == [] then None
    else if Contains(context, forbidden[0]) then Some(forbidden[0])
    else
      assert forall f :: f in forbidden <==> f == forbidden[0] || f in forbidden[1..];
      FirstForbidden(context, forbidden[1..])
  }

  function CheckClusterAllowed(c: SafetyConstraints): (r: Option<AbortReason>)
    ensures r.None? <==> forall f | f in c.forbidden :: !Contains(Lower(c.clusterContext), f)
    ensures r.Some? ==> r.value == ClusterDenied
  {
    if FirstForbidden(Lower(c.clusterContext), c.forbidden).Some? then Some(ClusterDenied) else None
  }

  /** The context is lower-cased but the denylist is not, so an entry can refuse some cluster if
      and only if it is written without upper-case letters. */
  lemma EntryIsEffectiveIffLowerCase(f: string)
    ensures (exists context: string :: Contains(Lower(context), f)) <==>
        forall i | 0 <= i < |f| :: !('A' <= f[i] <= 'Z')
  {
    if forall i | 0 <= i < |f| :: !('A' <= f[i] <= 'Z') {
      LowerFixed(f);
      assert OccursAt(Lower(f), f, 0);
      assert Contains(Lower(f), f);
    } else {
      forall context: string, k: nat | OccursAt(Lower(context), f, k) ensures false {
        OccurrenceIsLowerCase(context, f, k);
      }
    }
  }

  lemma OccurrenceIsLowerCase(context: string, f: string, k: nat)
    requires OccursAt(Lower(context), f, k)
    ensures forall i | 0 <= i < |f| :: !('A' <= f[i] <= 'Z')
  {
    var low := Lower(context);
    forall i | 0 <= i < |f| ensures !('A' <= f[i] <= 'Z') {
      assert low[k..k + |f|][i] == low[k + i] == LowerChar(context[k + i]);
    }
  }

  /** Any other lower-casing by characters. */
  function Mapped(s: string, low: char -> char): (r: string)
    ensures |r| == |s|
    ensures forall i | 0 <= i < |s| :: r[i] == low(s[i])
  {
    seq(|s|, i requires 0 <= i < |s| => low(s[i]))
  }

  /** The same for any alphabet: an entry is effective if and only if lower-casing leaves it alone. */
  lemma EntryIsEffectiveIff(f: string, low: char -> char)
    requires forall c :: low(low(c)) == low(c)
    ensures (exists context: string :: Contains(Mapped(context, low), f)) <==>
        forall i | 0 <= i < |f| :: low(f[i]) == f[i]
  {
    if forall i | 0 <= i < |f| :: low(f[i]) == f[i] {
      assert Mapped(f, low) == f && OccursAt(f, f, 0);
      assert Contains(Mapped(f, low), f);
    }
    forall context: string, k: nat, i | OccursAt(Mapped(context, low), f, k) && 0 <= i < |f| ensures low(f[i]) == f[i] {
      assert Mapped(context, low)[k..k + |f|][i] == Mapped(context, low)[k + i] == low(context[k + i]);
    }
  }

  // ----- the namespace annotation ----------------------------------------------------------------

  const ALLOWED := "chaos.kosta.dev/allowed"

  predicate Annotated(annotations: Option<map<string, string>>) {
    annotations.Some? && ALLOWED in annotations.value && annotations.value[ALLOWED] == "true"
  }

  /** Fails closed: annotations that could not be read refuse the run like a missing one. */
  function CheckNamespaceAnnotation(c: SafetyConstraints, annotations: Option<map<string, string>>): (
      r: Option<AbortReason>)
    ensures r.None? <==>
      || !c.requireAnnotation
      || (annotations.Some? && "chaos.kosta.dev/allowed" in annotations.value
          && annotations.value["chaos.kosta.dev/allowed"] == "true")
    ensures r.Some? ==> r.value == ClusterDenied
  {
    if !c.requireAnnotation then None
    else if annotations.None? then Some(ClusterDenied)
    else if ALLOWED in annotations.value && annotations.value[ALLOWED] == "true" then None
    else Some(ClusterDenied)
  }

  // ----- the blast radius ------------------------------------------------------------------------

  predicate RadiusAllowed(faults: seq<FaultSpec>, c: SafetyConstraints) {
    && (|faults| <= 1 || c.allowMultiFault)
    && forall i | 0 <= i < |faults| :: faults[i].durationSeconds <= c.maxDurationSeconds
  }

  function FirstTooLong(faults: seq<FaultSpec>, limit: nat): (hit: Option<FaultSpec>)
    ensures hit.None? <==> forall i | 0 <= i < |faults| :: faults[i].durationSeconds <= limit
  {
    if faults == [] then None
    else if faults[0].durationSeconds > limit then Some(faults[0])
    else FirstTooLong(faults[1..], limit)
  }

  function CheckBlastRadius(faults: seq<FaultSpec>, c: SafetyConstraints): (r: Option<AbortReason>)
    ensures r.None? <==>
      && (|faults| <= 1 || c.allowMultiFault)
      && forall i | 0 <= i < |faults| :: faults[i].durationSeconds <= c.maxDurationSeconds
    ensures r.Some? ==> r.value == BlastRadiusViolation
  {
    if |faults| > 1 && !c.allowMultiFault then Some(BlastRadiusViolation)
    else if FirstTooLong(faults, c.maxDurationSeconds).Some? then Some(BlastRadiusViolation)
    else None
  }

  // ----- the baselines -----------------------------------------------------------------------------

  /** A missing report does not count against the run. */
  function CheckBaselineHealthy(tester: Option<TesterReport>, security: Option<SecurityReport>): (
      r: Option<AbortReason>)
    ensures r.None? <==> (tester.Some? ==> tester.value.steady) && (security.Some? ==> !security.value.criticalOrHigh)
    ensures r.Some? ==> r.value == BaselineUnhealthy
  {
    if tester.Some? && !tester.value.steady then Some(BaselineUnhealthy)
    else if security.Some? && security.value.criticalOrHigh then Some(BaselineUnhealthy)
    else None
  }

  // ----- the budget --------------------------------------------------------------------------------

  predicate WithinBudget(budget: TokenBudget, spent: real, elapsed: real) {
    spent < budget.hardCap && elapsed < budget.wallClockSeconds
  }

  class BudgetTracker {
    const budget: TokenBudget
    var spent: real
    var softWarned: bool

    constructor (budget: TokenBudget)
      ensures this.budget == budget && spent == 0.0 && !softWarned
    {
      this.budget, spent, softWarned := budget, 0.0, false;
    }

    method SoftWarnDue() returns (due: bool)
      modifies this`softWarned
      ensures due <==> !old(softWarned) && spent >= budget.softCap
      ensures softWarned == (old(softWarned) || spent >= budget.softCap)
    {
      if softWarned {
        return false;
      }
      if spent >= budget.softCap {
        softWarned := true;
        return true;
      }
      return false;
    }

    method HardExceeded(elapsed: real) returns (exceeded: bool)
      ensures exceeded <==> spent >= budget.hardCap || elapsed >= budget.wallClockSeconds
    {
      exceeded := spent >= budget.hardCap || elapsed >= budget.wallClockSeconds;
    }
  }
}

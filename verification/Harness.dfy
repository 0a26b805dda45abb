/** The invocation log around agent calls. An instrumented call opens an invocation, makes it the
    current one, and on every exit restores the caller's and appends its own to the log. LLM cost
    and tool calls go to whichever invocation is current. */
module Harness {
  import opened Prelude

  datatype Invocation = Invocation(agent: string, operation: string, ok: bool, spend: Option<real>,
      toolCalls: seq<string>)

  /** What running code does, as far as the harness can see. */
  datatype Action =
    | Spend(usd: real)
    | Tools(traces: seq<string>)
    | Call(agent: string, operation: string, body: seq<Action>, raises: bool)

  // ----- what the harness does --------------------------------------------------------------

  /** The current invocation after an action of its own. A nested call leaves it alone. */
  function Attributed(cur: Option<Invocation>, a: Action): Option<Invocation> {
    match a
    case Spend(usd) =>
      if usd <= 0.0 || cur.None? then cur
      else Some(cur.value.(spend := Some(cur.value.spend.GetOr(0.0) + usd)))
    case Tools(traces) =>
      if cur.None? then cur else Some(cur.value.(toolCalls := cur.value.toolCalls + traces))
    case Call(_, _, _, _) => cur
  }

  function AttributedAll(cur: Option<Invocation>, body: seq<Action>): Option<Invocation>
    decreases |body|
  {
    if body == [] then cur else AttributedAll(Attributed(cur, body[0]), body[1..])
  }

  /** The invocation of one call, once its body has run. */
  function Closed(call: Action): Invocation
    requires call.Call?
  {
    AttributedAll(Some(Invocation(call.agent, call.operation, false, None, [])), call.body)
    .GetOr(Invocation(call.agent, call.operation, false, None, []))
    .(ok := !call.raises)
  }

  /** The invocations an action appends, in the order their calls finish. */
  function Log(a: Action): seq<Invocation>
    decreases a
  {
    if a.Call? then LogAll(a.body) + [Closed(a)] else []
  }

  function LogAll(body: seq<Action>): seq<Invocation>
    decreases body
  {
    if body == [] then [] else Log(body[0]) + LogAll(body[1..])
  }

  lemma {:induction false} LogAllMore(body: seq<Action>, a: Action)
    ensures LogAll(body + [a]) == LogAll(body) + Log(a)
    decreases |body|
  {
    if body == [] {
      assert [a][1..] == [] && Log(a) + [] == Log(a) && [] + Log(a) == Log(a) && [] + [a] == [a];
    } else {
      LogAllMore(body[1..], a);
      assert (body + [a])[1..] == body[1..] + [a] && (body + [a])[0] == body[0];
      assert Log(body[0]) + (LogAll(body[1..]) + Log(a)) == Log(body[0]) + LogAll(body[1..]) + Log(a);
    }
  }

  class Harness {
    var invocations: seq<Invocation>
    var current: Option<Invocation>

    constructor ()
      ensures invocations == [] && current == None
    {
      invocations, current := [], None;
    }

    method RecordSpend(usd: real)
      modifies this`current
      ensures current == Attributed(old(current), Spend(usd))
    {
      if usd <= 0.0 || current.None? {
        return;
      }
      current := Some(current.value.(spend := Some(current.value.spend.GetOr(0.0) + usd)));
    }

    method RecordToolCalls(traces: seq<string>)
      modifies this`current
      ensures current == Attributed(old(current), Tools(traces))
    {
      if traces == [] || current.None? {
        assert current.Some? ==> current.value.toolCalls + [] == current.value.toolCalls;
        return;
      }
      current := Some(current.value.(toolCalls := current.value.toolCalls + traces));
    }

    /** Runs an action, raising or not. Whatever happens inside, the caller's invocation is current
        again afterwards and the log has grown by exactly the finished calls. */
    method Perform(a: Action)
      modifies this
      ensures current == Attributed(old(current), a)
      ensures invocations == old(invocations) + Log(a)
      decreases a
    {
      match a
      case Spend(usd) =>
        RecordSpend(usd);
      case Tools(traces) =>
        RecordToolCalls(traces);
      case Call(agent, operation, body, raises) =>
        var token := current;
        current := Some(Invocation(agent, operation, false, None, []));
        PerformAll(body);
        StaysOpen(Some(Invocation(agent, operation, false, None, [])), body);
        var inv := current.value.(ok := !raises);
        current := token;
        invocations := invocations + [inv];
    }

    method PerformAll(body: seq<Action>)
      modifies this
      ensures current == AttributedAll(old(current), body)
      ensures invocations == old(invocations) + LogAll(body)
      decreases body
    {
      if body != [] {
        Perform(body[0]);
        PerformAll(body[1..]);
      }
    }

    /** What the budget gate and the record's spend read. */
    method Total() returns (usd: real)
      ensures usd == TotalSpend(invocations)
    {
      usd := 0.0;
      for n := 0 to |invocations|
        invariant usd == TotalSpend(invocations[..n])
      {
        assert invocations[..n + 1] == invocations[..n] + [invocations[n]];
        TotalSpendAppend(invocations[..n], [invocations[n]]);
        assert [invocations[n]][1..] == [];
        usd := usd + invocations[n].spend.GetOr(0.0);
      }
      assert invocations[..|invocations|] == invocations;
    }
  }

  lemma {:induction false} StaysOpen(cur: Option<Invocation>, body: seq<Action>)
    requires cur.Some?
    ensures AttributedAll(cur, body).Some?
    decreases |body|
  {
    if body != [] {
      StaysOpen(Attributed(cur, body[0]), body[1..]);
    }
  }

  // ----- what it means ------------------------------------------------------------------------

  function TotalSpend(invs: seq<Invocation>): real {
    if invs == [] then 0.0 else invs[0].spend.GetOr(0.0) + TotalSpend(invs[1..])
  }

  lemma {:induction false} TotalSpendAppend(a: seq<Invocation>, b: seq<Invocation>)
    ensures TotalSpend(a + b) == TotalSpend(a) + TotalSpend(b)
  {
    if a == [] {
      assert a + b == b;
    } else {
      assert (a + b)[1..] == a[1..] + b;
      TotalSpendAppend(a[1..], b);
    }
  }

  /** Every call inside an action, itself included, in the order they finish. */
  function Calls(a: Action): seq<Action>
    decreases a
  {
    if a.Call? then CallsIn(a.body) + [a] else []
  }

  function CallsIn(body: seq<Action>): seq<Action>
    decreases body
  {
    if body == [] then [] else Calls(body[0]) + CallsIn(body[1..])
  }

  function Cost(a: Action): real {
    if a.Spend? && a.usd > 0.0 then a.usd else 0.0
  }

  /** Positive costs reported by a body directly, outside any nested call. */
  function OwnCost(body: seq<Action>): real {
    if body == [] then 0.0 else Cost(body[0]) + OwnCost(body[1..])
  }

  function OwnTools(body: seq<Action>): seq<string> {
    if body == [] then [] else (if body[0].Tools? then body[0].traces else []) + OwnTools(body[1..])
  }

  /** Every positive cost reported while at least one instrumented call was running. */
  function CostInside(a: Action): real
    decreases a
  {
    if a.Call? then CostOf(a.body) else 0.0
  }

  function CostOf(body: seq<Action>): real
    decreases body
  {
    if body == [] then 0.0 else Cost(body[0]) + CostInside(body[0]) + CostOf(body[1..])
  }

  lemma {:induction false} OwnCostIsNonNegative(body: seq<Action>)
    ensures OwnCost(body) >= 0.0
  {
    if body != [] {
      OwnCostIsNonNegative(body[1..]);
    }
  }

  lemma {:induction false} CostIsNonNegative(body: seq<Action>)
    ensures CostOf(body) >= 0.0
    decreases body
  {
    if body != [] {
      if body[0].Call? {
        CostIsNonNegative(body[0].body);
      }
      CostIsNonNegative(body[1..]);
    }
  }

  lemma {:induction false} AttributedIsOwn(inv: Invocation, body: seq<Action>)
    requires inv.spend.Some? ==> inv.spend.value > 0.0
    ensures var own := OwnCost(body);
            && own >= 0.0
            && AttributedAll(Some(inv), body) == Some(inv.(
                 spend := if own == 0.0 then inv.spend else Some(inv.spend.GetOr(0.0) + own),
                 toolCalls := inv.toolCalls + OwnTools(body)))
    decreases |body|
  {
    OwnCostIsNonNegative(body);
    if body == [] {
      assert inv.toolCalls + [] == inv.toolCalls;
    } else {
      var next := Attributed(Some(inv), body[0]);
      OwnCostIsNonNegative(body[1..]);
      AttributedIsOwn(next.value, body[1..]);
      assert inv.toolCalls + [] == inv.toolCalls;
      var own := if body[0].Tools? then body[0].traces else [];
      assert next.value.toolCalls == inv.toolCalls + own;
      assert (inv.toolCalls + own) + OwnTools(body[1..]) == inv.toolCalls + (own + OwnTools(body[1..]));
    }
  }

  /** Innermost attribution: a call's invocation carries exactly the cost and the tool calls that
      its own body reported, none of its callees'. A call that reported no positive cost has no
      spend at all, rather than a spend of zero. */
  lemma ClosedCarriesItsOwn(call: Action)
    requires call.Call?
    ensures var own := OwnCost(call.body);
            Closed(call) == Invocation(call.agent, call.operation, !call.raises,
                                       if own > 0.0 then Some(own) else None, OwnTools(call.body))
  {
    var start := Invocation(call.agent, call.operation, false, None, []);
    AttributedIsOwn(start, call.body);
    assert [] + OwnTools(call.body) == OwnTools(call.body);
  }

  /** One invocation per finished call, raising or not, in finishing order. */
  lemma {:induction false} OneInvocationPerCall(a: Action)
    ensures |Log(a)| == |Calls(a)|
    ensures forall k | 0 <= k < |Log(a)| :: Calls(a)[k].Call? && Log(a)[k] == Closed(Calls(a)[k])
    decreases a
  {
    if a.Call? {
      OneInvocationPerCallIn(a.body);
    }
  }

  lemma {:induction false} OneInvocationPerCallIn(body: seq<Action>)
    ensures |LogAll(body)| == |CallsIn(body)|
    ensures forall k | 0 <= k < |LogAll(body)| :: CallsIn(body)[k].Call? && LogAll(body)[k] == Closed(CallsIn(body)[k])
    decreases body
  {
    if body != [] {
      OneInvocationPerCall(body[0]);
      OneInvocationPerCallIn(body[1..]);
    }
  }

  /** Conservation: however calls nest and whichever of them raise, the log's spend is the sum of
      all positive costs reported inside them. */
  lemma {:induction false} CostIsConserved(a: Action)
    ensures TotalSpend(Log(a)) == CostInside(a)
    decreases a
  {
    if a.Call? {
      CostIsConservedIn(a.body);
      ClosedCarriesItsOwn(a);
      OwnCostIsNonNegative(a.body);
      TotalSpendAppend(LogAll(a.body), [Closed(a)]);
      assert [Closed(a)][1..] == [];
    }
  }

  lemma {:induction false} CostIsConservedIn(body: seq<Action>)
    ensures TotalSpend(LogAll(body)) + OwnCost(body) == CostOf(body)
    decreases body
  {
    if body != [] {
      CostIsConserved(body[0]);
      CostIsConservedIn(body[1..]);
      TotalSpendAppend(Log(body[0]), LogAll(body[1..]));
    }
  }

  /** A harness shared by several runs accumulates: what one run reads includes its predecessors. */
  lemma SharedHarnessIsCumulative(before: seq<Invocation>, run: seq<Action>)
    requires forall a | a in run :: a.Call?
    ensures TotalSpend(before + LogAll(run)) == TotalSpend(before) + CostOf(run)
  {
    TotalSpendAppend(before, LogAll(run));
    CostIsConservedIn(run);
    CallsOwnNothing(run);
  }

  lemma {:induction false} CallsOwnNothing(run: seq<Action>)
    requires forall a | a in run :: a.Call?
    ensures OwnCost(run) == 0.0
  {
    if run != [] {
      assert run[0] in run;
      CallsOwnNothing(run[1..]);
    }
  }
}

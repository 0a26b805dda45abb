/** The tool-calling loop around a language model. Model and tools are black boxes; the loop owes the
    model a well-formed conversation and its caller a bounded number of completions. */
module Llm {
  import opened Prelude
  import opened Text

  datatype ToolCall = ToolCall(id: string, name: string, arguments: string)

  datatype Response = Response(content: string, calls: seq<ToolCall>, cost: Option<real>)

  datatype Message =
    | System(content: string)
    | User(content: string)
    | Assistant(content: string, calls: seq<ToolCall>)
    | ToolReply(id: string, content: string)

  /** The model answers a conversation, the n-th one it is asked about; any call may raise. */
  type Model = (seq<Message>, nat) -> Answer<Response>

  /** How tool arguments parse, and what a handler makes of them the n-th time a tool is run. */
  datatype Parsed = NotJson | NotAnObject | Object

  datatype Toolbox = Toolbox(parse: string -> Parsed, handlers: map<string, (string, nat) -> Answer<string>>)

  datatype Trace = Trace(name: string, arguments: string, result: string, isError: bool)

  datatype StopReason = NoToolCalls | RepeatedToolCall | BudgetExceeded | MaxTurnsReached

  datatype Completion = Completion(finalText: string, turns: nat, trace: seq<Trace>, spend: Option<real>,
      stopped: StopReason)

  // ----- what the loop is supposed to do, as functions of the responses so far --------------------

  function Spent(rs: seq<Response>): real {
    if rs == [] then 0.0 else Spent(rs[..|rs| - 1]) + rs[|rs| - 1].cost.GetOr(0.0)
  }

  predicate Reported(rs: seq<Response>) {
    exists i | 0 <= i < |rs| :: rs[i].cost.Some?
  }

  predicate SameSingleCall(a: Response, b: Response) {
    |a.calls| == 1 && |b.calls| == 1 && a.calls[0].name == b.calls[0].name
      && a.calls[0].arguments == b.calls[0].arguments
  }

  /** How many responses at the end consist of one and the same single call. */
  function Streak(rs: seq<Response>): nat {
    if rs == [] || |rs[|rs| - 1].calls| != 1 then 0
    else if |rs| > 1 && SameSingleCall(rs[|rs| - 2], rs[|rs| - 1]) then Streak(rs[..|rs| - 1]) + 1
    else 1
  }

  /** Why the loop may not go on after these responses, if it may not. */
  function Stop(rs: seq<Response>, limit: int, budget: Option<real>): Option<StopReason>
    requires rs != []
  {
    if rs[|rs| - 1].calls == [] then Some(NoToolCalls)
    else if limit > 0 && Streak(rs) > limit then Some(RepeatedToolCall)
    else if budget.Some? && Reported(rs) && Spent(rs) >= budget.value then Some(BudgetExceeded)
    else None
  }

  function LastText(rs: seq<Response>): string {
    if rs == [] then ""
    else if rs[|rs| - 1].content != "" then rs[|rs| - 1].content
    else LastText(rs[..|rs| - 1])
  }

  function CallsOf(rs: seq<Response>): seq<ToolCall> {
    if rs == [] then [] else CallsOf(rs[..|rs| - 1]) + rs[|rs| - 1].calls
  }

  /** The n responses at the end all consist of the last one's single call. */
  ghost predicate EndsAlike(rs: seq<Response>, n: nat) {
    n <= |rs| && forall i | |rs| - n <= i < |rs| :: SameSingleCall(rs[i], rs[|rs| - 1])
  }

  lemma {:induction false} StreakIff(rs: seq<Response>, n: nat)
    requires n > 0
    ensures Streak(rs) >= n <==> EndsAlike(rs, n)
    decreases |rs|
  {
    if rs != [] && n > 1 {
      var front := rs[..|rs| - 1];
      StreakIff(front, n - 1);
      if EndsAlike(rs, n) {
        assert SameSingleCall(rs[|rs| - 2], rs[|rs| - 1]);
        assert forall i | |front| - (n - 1) <= i < |front| :: SameSingleCall(rs[i], rs[|rs| - 1]) && front[i] == rs[i];
      }
      if EndsAlike(front, n - 1) && |rs| > 1 && SameSingleCall(rs[|rs| - 2], rs[|rs| - 1]) {
        assert forall i | |front| - (n - 1) <= i < |front| :: SameSingleCall(front[i], front[|front| - 1]);
      }
    }
  }

  /** The exact conditions: the loop stops because the model calls no tool; failing that, because it has made
      one and the same single call more often than the limit, if there is one; and failing that,
      because the costs reported have reached the budget, if there is one. */
  lemma StopIff(rs: seq<Response>, limit: int, budget: Option<real>)
    requires rs != []
    ensures var done := rs[|rs| - 1].calls == [];
            var stuck := limit > 0 && EndsAlike(rs, limit + 1);
            var spent := && budget.Some? && (exists i | 0 <= i < |rs| :: rs[i].cost.Some?)
                         && Sum(CostsOf(rs)) >= budget.value;
            && (Stop(rs, limit, budget) == Some(NoToolCalls) <==> done)
            && (Stop(rs, limit, budget) == Some(RepeatedToolCall) <==> !done && stuck)
            && (Stop(rs, limit, budget) == Some(BudgetExceeded) <==> !done && !stuck && spent)
            && (Stop(rs, limit, budget) == None <==> !done && !stuck && !spent)
  {
    if limit > 0 {
      StreakIff(rs, limit + 1);
    }
    SpentIsSum(rs);
  }

  function CostsOf(rs: seq<Response>): (costs: seq<real>)
    ensures |costs| == |rs|
    ensures forall i | 0 <= i < |rs| :: costs[i] == if rs[i].cost.Some? then rs[i].cost.value else 0.0
  {
    seq(|rs|, i requires 0 <= i < |rs| => rs[i].cost.GetOr(0.0))
  }

  lemma {:induction false} SpentIsSum(rs: seq<Response>)
    ensures Spent(rs) == Sum(CostsOf(rs))
  {
    if rs != [] {
      var front, last := rs[..|rs| - 1], rs[|rs| - 1].cost.GetOr(0.0);
      SpentIsSum(front);
      assert CostsOf(rs) == CostsOf(front) + [last];
      SumAppend(CostsOf(front), [last]);
      SumOne(last);
    }
  }

  /** The final text is that of the last response that has one. */
  lemma {:induction false} LastTextIs(rs: seq<Response>)
    ensures (forall i | 0 <= i < |rs| :: rs[i].content == "") ==> LastText(rs) == ""
    ensures forall i | 0 <= i < |rs| && rs[i].content != "" && (forall j | i < j < |rs| :: rs[j].content == "") ::
        LastText(rs) == rs[i].content
  {
    if rs != [] {
      var front := rs[..|rs| - 1];
      LastTextIs(front);
      assert forall i | 0 <= i < |front| :: front[i] == rs[i];
    }
  }

  // ----- a well-formed conversation -----------------------------------------------------------------

  /** One reply per call, same ids, same order. */
  predicate Replies(ms: seq<Message>, calls: seq<ToolCall>) {
    |ms| == |calls| && forall i | 0 <= i < |calls| :: ms[i].ToolReply? && ms[i].id == calls[i].id
  }

  /** A run of assistant turns with tool calls, each directly followed by its replies. */
  predicate Exchanges(ms: seq<Message>)
    decreases |ms|
  {
    ms == [] ||
    (ms[0].Assistant? && ms[0].calls != [] && |ms[0].calls| < |ms|
     && Replies(ms[1..1 + |ms[0].calls|], ms[0].calls) && Exchanges(ms[1 + |ms[0].calls|..]))
  }

  predicate WellFormed(ms: seq<Message>) {
    |ms| >= 2 && ms[0].System? && ms[1].User? && Exchanges(ms[2..])
  }

  lemma {:induction false} ExchangesAppend(a: seq<Message>, b: seq<Message>)
    requires Exchanges(a) && Exchanges(b)
    ensures Exchanges(a + b)
    decreases |a|
  {
    if a == [] {
      assert a + b == b;
    } else {
      var n := 1 + |a[0].calls|;
      ExchangesAppend(a[n..], b);
      assert n <= |a|;
      assert (a + b)[0] == a[0] && (a + b)[1..n] == a[1..n] && (a + b)[n..] == a[n..] + b;
    }
  }

  lemma OneExchange(m: Message, replies: seq<Message>)
    requires m.Assistant? && m.calls != [] && Replies(replies, m.calls)
    ensures Exchanges([m] + replies)
  {
    var ms := [m] + replies;
    assert ms[1..1 + |m.calls|] == replies && ms[1 + |m.calls|..] == [];
  }

  lemma GrowsByExchange(ms: seq<Message>, m: Message, replies: seq<Message>)
    requires WellFormed(ms) && m.Assistant? && m.calls != [] && Replies(replies, m.calls)
    ensures WellFormed(ms + [m] + replies)
  {
    OneExchange(m, replies);
    ExchangesAppend(ms[2..], [m] + replies);
    assert (ms + [m] + replies)[2..] == ms[2..] + ([m] + replies);
  }

  // ----- what the model gets to see -----------------------------------------------------------------

  /** What running a call as the n-th one came to: the handler's answer, or an error in its place. */
  predicate Ran(t: Trace, call: ToolCall, tools: Toolbox, n: nat) {
    && t.name == call.name && t.arguments == call.arguments
    && (!t.isError <==>
          && call.name in tools.handlers && tools.parse(call.arguments).Object?
          && tools.handlers[call.name](call.arguments, n).Answered?)
    && (if t.isError then StartsWith(t.result, "error: ")
        else t.result == tools.handlers[call.name](call.arguments, n).value)
  }

  /** A trace of calls, run in their order from the n-th on. */
  predicate Traces(ts: seq<Trace>, calls: seq<ToolCall>, tools: Toolbox, n: nat) {
    |ts| == |calls| && forall i | 0 <= i < |calls| :: Ran(ts[i], calls[i], tools, n + i)
  }

  /** One reply per call, with the call's id and what running it came to. */
  function RepliesTo(calls: seq<ToolCall>, ts: seq<Trace>): (ms: seq<Message>)
    requires |calls| == |ts|
    ensures Replies(ms, calls) && forall i | 0 <= i < |ms| :: ms[i].content == ts[i].result
  {
    seq(|calls|, i requires 0 <= i < |calls| => ToolReply(calls[i].id, ts[i].result))
  }

  /** The conversation after these responses: instructions and question, then each response with its calls,
      followed by the replies to them. */
  function Conversation(system: string, user: string, rs: seq<Response>, ts: seq<Trace>): seq<Message>
    requires |CallsOf(rs)| <= |ts|
    decreases |rs|
  {
    if rs == [] then [System(system), User(user)]
    else
      var front, r := rs[..|rs| - 1], rs[|rs| - 1];
      Conversation(system, user, front, ts) + [Assistant(r.content, r.calls)]
        + RepliesTo(r.calls, ts[|CallsOf(front)|..|CallsOf(rs)|])
  }

  lemma CallsOfMore(rs: seq<Response>, r: Response)
    ensures CallsOf(rs + [r]) == CallsOf(rs) + r.calls
  {
    assert (rs + [r])[..|rs|] == rs;
  }

  lemma ConversationMore(system: string, user: string, rs: seq<Response>, r: Response, ts: seq<Trace>, more: seq<Trace>)
    requires |CallsOf(rs)| == |ts| && |more| == |r.calls|
    ensures |CallsOf(rs + [r])| == |ts + more|
    ensures Conversation(system, user, rs + [r], ts + more)
         == Conversation(system, user, rs, ts) + [Assistant(r.content, r.calls)] + RepliesTo(r.calls, more)
  {
    CallsOfMore(rs, r);
    assert (rs + [r])[..|rs|] == rs && (ts + more)[|ts|..|ts + more|] == more;
    ConversationStays(system, user, rs, ts, ts + more);
  }

  /** A conversation does not depend on what is run later. */
  lemma {:induction false} ConversationStays(system: string, user: string, rs: seq<Response>, ts: seq<Trace>,
      later: seq<Trace>)
    requires |CallsOf(rs)| <= |ts| && ts <= later
    ensures Conversation(system, user, rs, ts) == Conversation(system, user, rs, later)
    decreases |rs|
  {
    if rs != [] {
      var front := rs[..|rs| - 1];
      ConversationStays(system, user, front, ts, later);
      assert ts[|CallsOf(front)|..|CallsOf(rs)|] == later[|CallsOf(front)|..|CallsOf(rs)|];
    }
  }

  lemma {:induction false} ConversationIsWellFormed(system: string, user: string, rs: seq<Response>, ts: seq<Trace>)
    requires |CallsOf(rs)| <= |ts| && forall i | 0 <= i < |rs| :: rs[i].calls != []
    ensures WellFormed(Conversation(system, user, rs, ts))
    decreases |rs|
  {
    if rs == [] {
      assert [System(system), User(user)][2..] == [];
    } else {
      var front, r := rs[..|rs| - 1], rs[|rs| - 1];
      ConversationIsWellFormed(system, user, front, ts);
      GrowsByExchange(Conversation(system, user, front, ts), Assistant(r.content, r.calls),
        RepliesTo(r.calls, ts[|CallsOf(front)|..|CallsOf(rs)|]));
    }
  }

  // ----- the loop -------------------------------------------------------------------------------------

  /** Every way a tool call can go wrong becomes a result the model gets to see. */
  method ExecuteOneTool(call: ToolCall, tools: Toolbox, n: nat) returns (t: Trace)
    ensures Ran(t, call, tools, n)
  {
    if call.name !in tools.handlers {
      return Trace(call.name, call.arguments, "error: unknown tool", true);
    }
    match tools.parse(call.arguments) {
      case NotJson =>
        return Trace(call.name, call.arguments, "error: tool args were not JSON", true);
      case NotAnObject =>
        return Trace(call.name, call.arguments, "error: tool args must be an object", true);
      case Object =>
    }
    var out := tools.handlers[call.name](call.arguments, n);
    if out.Raised? {
      return Trace(call.name, call.arguments, "error: the tool raised", true);
    }
    return Trace(call.name, call.arguments, out.value, false);
  }

  /** Runs a turn's calls in order, with one reply each. */
  method RunTools(calls: seq<ToolCall>, tools: Toolbox, n: nat) returns (ts: seq<Trace>, replies: seq<Message>)
    ensures Traces(ts, calls, tools, n) && replies == RepliesTo(calls, ts)
  {
    ts, replies := [], [];
    for k := 0 to |calls|
      invariant Traces(ts, calls[..k], tools, n) && replies == RepliesTo(calls[..k], ts)
    {
      var entry := ExecuteOneTool(calls[k], tools, n + k);
      ts := ts + [entry];
      replies := replies + [ToolReply(calls[k].id, entry.result)];
      assert calls[..k + 1] == calls[..k] + [calls[k]];
    }
    assert calls[..|calls|] == calls;
  }

  /** The loop's own counter of identical calls. */
  datatype Repeats = Repeats(last: Option<(string, string)>, count: nat)

  ghost predicate Counts(c: Repeats, rs: seq<Response>) {
    if c.last.None? then Streak(rs) == 0
    else
      && rs != [] && |rs[|rs| - 1].calls| == 1 && Streak(rs) == c.count + 1
      && c.last.value == (rs[|rs| - 1].calls[0].name, rs[|rs| - 1].calls[0].arguments)
  }

  method CountRepeats(c: Repeats, ghost before: seq<Response>, r: Response, limit: int)
      returns (next: Repeats, stuck: bool)
    requires limit > 0 ==> Counts(c, before)
    ensures limit > 0 ==> Counts(next, before + [r])
    ensures stuck <==> limit > 0 && Streak(before + [r]) > limit
  {
    ghost var rs := before + [r];
    assert rs[..|rs| - 1] == before;
    stuck := false;
    if limit > 0 && |r.calls| == 1 {
      var sig := (r.calls[0].name, r.calls[0].arguments);
      if c.last == Some(sig) {
        next := Repeats(c.last, c.count + 1);
        stuck := next.count >= limit;
      } else {
        next := Repeats(Some(sig), 0);
      }
    } else {
      next := Repeats(None, 0);
    }
  }

  /** What the loop carries from turn to turn. */
  datatype Dialog = Dialog(messages: seq<Message>, trace: seq<Trace>, finalText: string, spend: Option<real>,
      repeats: Repeats)

  /** Text, spend and trace reflect the responses so far. */
  ghost predicate Reflects(d: Dialog, rs: seq<Response>, tools: Toolbox) {
    && d.finalText == LastText(rs)
    && d.spend == (if Reported(rs) then Some(Spent(rs)) else None)
    && Traces(d.trace, CallsOf(rs), tools, 0)
  }

  lemma Opening(d: Dialog, system: string, user: string, tools: Toolbox)
    requires d == Dialog([System(system), User(user)], [], "", None, Repeats(None, 0))
    ensures Reflects(d, [], tools) && d.messages == Conversation(system, user, [], d.trace) && Counts(d.repeats, [])
  {
  }

  lemma TracesOn(a: seq<Trace>, b: seq<Trace>, x: seq<ToolCall>, y: seq<ToolCall>, tools: Toolbox)
    requires Traces(a, x, tools, 0) && Traces(b, y, tools, |a|)
    ensures Traces(a + b, x + y, tools, 0)
  {
    forall i | 0 <= i < |x + y| ensures Ran((a + b)[i], (x + y)[i], tools, i) {
      if i >= |x| {
        assert Ran(b[i - |x|], y[i - |x|], tools, |a| + (i - |x|));
      }
    }
  }

  /** One response is booked, its tools are run, and the loop may have to stop. */
  method TakeTurn(d: Dialog, ghost system: string, ghost user: string, ghost before: seq<Response>, r: Response,
                  tools: Toolbox, limit: int, budget: Option<real>)
    returns (next: Dialog, stop: Option<StopReason>)
    requires Reflects(d, before, tools) && d.messages == Conversation(system, user, before, d.trace)
    requires limit > 0 ==> Counts(d.repeats, before)
    ensures Reflects(next, before + [r], tools) && stop == Stop(before + [r], limit, budget) && d.trace <= next.trace
    ensures stop != Some(NoToolCalls) ==>
      && next.messages == Conversation(system, user, before + [r], next.trace)
      && (limit > 0 ==> Counts(next.repeats, before + [r]))
  {
    hide Ran, LastText, CallsOf, Spent, Conversation, RepliesTo;
    next := Book(d, before, r, tools);
    if r.calls == [] {
      assert next.trace + [] == next.trace;
      return next, Some(NoToolCalls);
    }
    var ts, replies := RunTools(r.calls, tools, |d.trace|);
    var m := Assistant(r.content, r.calls);
    ConversationMore(system, user, before, r, d.trace, ts);
    TracesOn(d.trace, ts, CallsOf(before), r.calls, tools);
    next := next.(messages := d.messages + [m] + replies, trace := d.trace + ts);
    var repeats, stuck := CountRepeats(d.repeats, before, r, limit);
    next := next.(repeats := repeats);
    stop := None;
    if stuck {
      stop := Some(RepeatedToolCall);
    } else if budget.Some? && next.spend.Some? && next.spend.value >= budget.value {
      stop := Some(BudgetExceeded);
    }
  }

  /** Cost and text of a response; the trace is still the one before it. */
  method Book(d: Dialog, ghost before: seq<Response>, r: Response, ghost tools: Toolbox) returns (next: Dialog)
    requires Reflects(d, before, tools)
    ensures next == d.(finalText := next.finalText, spend := next.spend)
    ensures next.finalText == LastText(before + [r])
    ensures next.spend == if Reported(before + [r]) then Some(Spent(before + [r])) else None
    ensures CallsOf(before + [r]) == CallsOf(before) + r.calls
  {
    hide Traces;
    ghost var rs := before + [r];
    assert rs[..|rs| - 1] == before && rs[|rs| - 1] == r;
    assert Reported(rs) <==> Reported(before) || r.cost.Some? by {
      assert forall i | 0 <= i < |before| :: rs[i] == before[i];
    }
    UnreportedIsZero(before);
    next := d;
    if r.cost.Some? {
      next := next.(spend := Some(d.spend.GetOr(0.0) + r.cost.value));
    }
    if r.content != "" {
      next := next.(finalText := r.content);
    }
  }

  /** `sent` are the conversations the model was asked about, `rs` its responses and `ran` what became of
      its tool calls. Each conversation holds the instructions, the question and everything said since.
      Without an exception the loop has made exactly as many turns as responses came back, none beyond
      the first one it had to stop at. */
  method CompleteWithTools(model: Model, system: string, user: string, tools: Toolbox,
                           maxTurns: int, budget: Option<real>, limit: int)
    returns (result: Answer<Completion>, sent: seq<seq<Message>>, rs: seq<Response>, ran: seq<Trace>)
    ensures Traces(ran, CallsOf(rs), tools, 0)
    ensures forall k | 0 <= k < |sent| ::
      k <= |rs| && |CallsOf(rs[..k])| <= |ran| && sent[k] == Conversation(system, user, rs[..k], ran)
    ensures forall k | 0 <= k < |sent| :: WellFormed(sent[k])
    ensures |sent| <= (if maxTurns > 0 then maxTurns else 0) && |rs| == |sent| - (if result.Raised? then 1 else 0)
    ensures forall k | 0 <= k < |rs| :: model(sent[k], k) == Answered(rs[k])
    ensures result.Raised? ==> model(sent[|rs|], |rs|) == Raised
    ensures forall k | 0 < k < |sent| :: Stop(rs[..k], limit, budget) == None
    ensures result.Answered? ==> Describes(result.value, rs, maxTurns, limit, budget) && result.value.trace == ran
  {
    hide Stop, WellFormed, Counts, LastText, CallsOf, Spent, Conversation, Ran;
    var d := Dialog([System(system), User(user)], [], "", None, Repeats(None, 0));
    Opening(d, system, user, tools);
    sent, rs := [], [];
    var turn := 0;
    while turn < maxTurns
      invariant 0 <= turn && (turn > 0 ==> turn <= maxTurns) && |sent| == |rs| == turn
      invariant Reflects(d, rs, tools) && d.messages == Conversation(system, user, rs, d.trace)
      invariant limit > 0 ==> Counts(d.repeats, rs)
      invariant Shows(sent, system, user, rs, d.trace)
      invariant forall k | 0 <= k < |rs| :: model(sent[k], k) == Answered(rs[k])
      invariant forall k | 0 < k <= |rs| :: Stop(rs[..k], limit, budget) == None
    {
      ShowsMore(sent, system, user, rs, d.trace, limit, budget);
      sent := sent + [d.messages];
      var answer := model(d.messages, turn);
      if answer.Raised? {
        return Raised, sent, rs, d.trace;
      }
      var stop;
      ghost var before, seen := rs, d.trace;
      d, stop := TakeTurn(d, system, user, rs, answer.value, tools, limit, budget);
      rs := rs + [answer.value];
      turn := turn + 1;
      ShowsLater(sent, system, user, before, answer.value, seen, d.trace);
      assert rs[..|rs|] == rs && forall k | 0 < k < |rs| :: rs[..k] == before[..k];
      if stop.Some? {
        return Answered(Completion(d.finalText, turn, d.trace, d.spend, stop.value)), sent, rs, d.trace;
      }
    }
    assert rs[..|rs|] == rs;
    return Answered(Completion(d.finalText, turn, d.trace, d.spend, MaxTurnsReached)), sent, rs, d.trace;
  }

  /** Every conversation sent is the one after the responses there had been. */
  ghost predicate Shows(sent: seq<seq<Message>>, system: string, user: string, rs: seq<Response>, ran: seq<Trace>) {
    forall k | 0 <= k < |sent| ::
      && k <= |rs| && |CallsOf(rs[..k])| <= |ran| && sent[k] == Conversation(system, user, rs[..k], ran)
      && WellFormed(sent[k])
  }

  lemma ShowsMore(sent: seq<seq<Message>>, system: string, user: string, rs: seq<Response>, ran: seq<Trace>,
      limit: int, budget: Option<real>)
    requires Shows(sent, system, user, rs, ran) && |sent| == |rs| && |CallsOf(rs)| <= |ran|
    requires forall k | 0 < k <= |rs| :: Stop(rs[..k], limit, budget) == None
    ensures Shows(sent + [Conversation(system, user, rs, ran)], system, user, rs, ran)
  {
    hide Conversation, WellFormed, CallsOf;
    assert rs[..|rs|] == rs;
    forall i | 0 <= i < |rs| ensures rs[i].calls != [] {
      assert Stop(rs[..i + 1], limit, budget) == None;
    }
    ConversationIsWellFormed(system, user, rs, ran);
  }

  lemma ShowsLater(sent: seq<seq<Message>>, system: string, user: string, rs: seq<Response>, r: Response,
      ran: seq<Trace>, later: seq<Trace>)
    requires Shows(sent, system, user, rs, ran) && ran <= later
    ensures Shows(sent, system, user, rs + [r], later)
  {
    hide Conversation, WellFormed, CallsOf;
    forall k | 0 <= k < |sent|
      ensures k <= |rs + [r]| && |CallsOf((rs + [r])[..k])| <= |later|
      ensures sent[k] == Conversation(system, user, (rs + [r])[..k], later)
    {
      assert (rs + [r])[..k] == rs[..k];
      ConversationStays(system, user, rs[..k], ran, later);
    }
  }

  /** The result in terms of the responses: why the loop stopped, after how many turns, the last text
      that was not empty, and what was spent. */
  ghost predicate Describes(c: Completion, rs: seq<Response>, maxTurns: int, limit: int, budget: Option<real>) {
    && c.turns == |rs| && c.finalText == LastText(rs)
    && c.spend == (if Reported(rs) then Some(Spent(rs)) else None)
    && (if rs != [] && Stop(rs, limit, budget).Some? then c.stopped == Stop(rs, limit, budget).value
        else c.stopped == MaxTurnsReached && |rs| == if maxTurns > 0 then maxTurns else 0)
  }

  lemma {:induction false} UnreportedIsZero(rs: seq<Response>)
    ensures !Reported(rs) ==> Spent(rs) == 0.0
  {
    if rs != [] {
      var front := rs[..|rs| - 1];
      UnreportedIsZero(front);
      if Reported(front) {
        var i :| 0 <= i < |front| && front[i].cost.Some?;
        assert rs[i].cost.Some?;
      }
    }
  }

  // ----- what callers may count on ----------------------------------------------------------------------

  /** Responses of a run: the loop went on after each one but the last. */
  ghost predicate WentOn(rs: seq<Response>, limit: int, budget: Option<real>) {
    forall k | 0 < k < |rs| :: Stop(rs[..k], limit, budget) == None
  }

  /** A model that keeps making the same call is cut off: never more than limit + 1 times in a row. */
  lemma RepeatsAreBounded(rs: seq<Response>, limit: int, budget: Option<real>, k: nat)
    requires WentOn(rs, limit, budget) && limit > 0 && k <= |rs|
    ensures Streak(rs[..k]) <= limit + 1
  {
    var front := rs[..k];
    if k > 1 {
      assert front[..|front| - 1] == rs[..k - 1];
      assert Stop(rs[..k - 1], limit, budget) == None;
    }
  }

  /** Until the last turn the spend was below a positive budget. */
  lemma SpendStaysBelowBudget(rs: seq<Response>, limit: int, budget: real, k: nat)
    requires WentOn(rs, limit, Some(budget)) && budget > 0.0 && k < |rs|
    ensures Spent(rs[..k]) < budget
  {
    UnreportedIsZero(rs[..k]);
    if k > 0 {
      assert Stop(rs[..k], limit, Some(budget)) == None;
    }
  }
}

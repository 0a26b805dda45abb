/** Cross-experiment rollups. Every breakdown is a table of slots filled while the records are walked;
    what it adds up to must be what the totals say. */
module Aggregates {
  import opened Prelude
  import opened Sorting

  datatype Invocation = Invocation(agent: string, spend: Option<real>, prompt: Option<nat>, completion: Option<nat>)

  datatype Hypothesis = Hypothesis(fixClass: string, confidence: real)

  datatype Fix = Fix(action: string, files: seq<string>, confidence: real)

  datatype Record = Record(id: string, day: string, invocations: seq<Invocation>, diagnosis: Option<seq<Hypothesis>>,
      fix: Option<Fix>)

  /** What a slot collects: how often, how much (spend or confidence), how many tokens. */
  datatype Amount = Amount(count: nat, sum: real, prompt: nat, completion: nat)

  const ZERO := Amount(0, 0.0, 0, 0)

  function Plus(a: Amount, b: Amount): Amount {
    Amount(a.count + b.count, a.sum + b.sum, a.prompt + b.prompt, a.completion + b.completion)
  }

  lemma PlusLaws(a: Amount, b: Amount, c: Amount)
    ensures Plus(Plus(a, b), c) == Plus(a, Plus(b, c)) && Plus(Plus(a, b), c) == Plus(Plus(a, c), b)
    ensures Plus(a, ZERO) == a && Plus(ZERO, a) == a
  {
  }

  datatype Slot = Slot(key: string, amount: Amount)

  /** A Map in insertion order. */
  type Slots = seq<Slot>

  // ----- filling slots ----------------------------------------------------------------------------------

  /** Adds to the slot of a key, or opens one at the end. */
  function Bump(slots: Slots, key: string, a: Amount): Slots {
    if slots == [] then [Slot(key, a)]
    else if slots[0].key == key then [Slot(key, Plus(slots[0].amount, a))] + slots[1..]
    else [slots[0]] + Bump(slots[1..], key, a)
  }

  function BumpAll(slots: Slots, items: seq<Slot>): Slots
    decreases |items|
  {
    if items == [] then slots
    else Bump(BumpAll(slots, items[..|items| - 1]), items[|items| - 1].key, items[|items| - 1].amount)
  }

  function Total(slots: seq<Slot>): Amount {
    if slots == [] then ZERO else Plus(slots[0].amount, Total(slots[1..]))
  }

  /** The items of one key. */
  function Share(items: seq<Slot>, key: string): Amount {
    if items == [] then ZERO
    else Plus(if items[0].key == key then items[0].amount else ZERO, Share(items[1..], key))
  }

  ghost predicate OneSlotPerKey(slots: Slots) {
    forall i, j | 0 <= i < j < |slots| :: slots[i].key != slots[j].key
  }

  predicate HasKey(slots: Slots, key: string) {
    exists i | 0 <= i < |slots| :: slots[i].key == key
  }

  lemma {:induction false} BumpTotal(slots: Slots, key: string, a: Amount)
    ensures Total(Bump(slots, key, a)) == Plus(Total(slots), a)
  {
    hide Plus;
    var bumped := Bump(slots, key, a);
    if slots != [] {
      PlusLaws(slots[0].amount, Total(slots[1..]), a);
    }
    if slots == [] {
      PlusLaws(a, ZERO, ZERO);
      assert bumped[1..] == [];
    } else if slots[0].key == key {
      assert bumped[1..] == slots[1..];
    } else {
      BumpTotal(slots[1..], key, a);
      assert bumped[1..] == Bump(slots[1..], key, a);
    }
  }

  lemma {:induction false} BumpShare(slots: Slots, key: string, a: Amount, k: string)
    ensures Share(Bump(slots, key, a), k) == Plus(Share(slots, k), if k == key then a else ZERO)
  {
    hide Plus;
    var bumped := Bump(slots, key, a);
    var more := if k == key then a else ZERO;
    PlusLaws(more, ZERO, ZERO);
    if slots != [] {
      PlusLaws(if slots[0].key == k then slots[0].amount else ZERO, Share(slots[1..], k), more);
      PlusLaws(if slots[0].key == k then slots[0].amount else ZERO, more, more);
      PlusLaws(Share(slots[1..], k), ZERO, ZERO);
    }
    if slots == [] {
      assert bumped[1..] == [];
    } else if slots[0].key == key {
      assert bumped[1..] == slots[1..];
    } else {
      BumpShare(slots[1..], key, a, k);
      assert bumped[1..] == Bump(slots[1..], key, a);
    }
  }

  lemma {:induction false} BumpKeys(slots: Slots, key: string, a: Amount)
    ensures forall k :: HasKey(Bump(slots, key, a), k) <==> k == key || HasKey(slots, k)
    ensures OneSlotPerKey(slots) ==> OneSlotPerKey(Bump(slots, key, a))
  {
    var bumped := Bump(slots, key, a);
    if slots == [] {
      assert bumped[0].key == key;
    } else {
      KeyOfHead(slots);
      KeyOfHead(bumped);
      if slots[0].key == key {
        assert bumped[1..] == slots[1..];
      } else {
        BumpKeys(slots[1..], key, a);
        assert bumped[1..] == Bump(slots[1..], key, a);
      }
    }
  }

  lemma KeyOfHead(slots: Slots)
    requires slots != []
    ensures forall k :: HasKey(slots, k) <==> slots[0].key == k || HasKey(slots[1..], k)
    ensures OneSlotPerKey(slots) <==> OneSlotPerKey(slots[1..]) && !HasKey(slots[1..], slots[0].key)
  {
    var rest := slots[1..];
    forall k ensures HasKey(slots, k) <==> slots[0].key == k || HasKey(rest, k) {
      if i :| 0 <= i < |slots| && slots[i].key == k && i > 0 {
        assert rest[i - 1].key == k;
      }
      if i :| 0 <= i < |rest| && rest[i].key == k {
        assert slots[i + 1].key == k;
      }
    }
    assert forall i | 0 <= i < |rest| :: rest[i] == slots[i + 1];
    if !OneSlotPerKey(slots) {
      var i, j :| 0 <= i < j < |slots| && slots[i].key == slots[j].key;
      assert rest[j - 1].key == slots[i].key;
      if i > 0 {
        assert rest[i - 1].key == rest[j - 1].key;
      }
    }
  }

  lemma {:induction false} TotalAppend(a: seq<Slot>, b: seq<Slot>)
    ensures Total(a + b) == Plus(Total(a), Total(b))
  {
    hide Plus;
    if a == [] {
      assert a + b == b;
      PlusLaws(Total(b), ZERO, ZERO);
    } else {
      TotalAppend(a[1..], b);
      assert (a + b)[1..] == a[1..] + b && (a + b)[0] == a[0];
      PlusLaws(a[0].amount, Total(a[1..]), Total(b));
    }
  }

  lemma {:induction false} ShareAppend(a: seq<Slot>, b: seq<Slot>, key: string)
    ensures Share(a + b, key) == Plus(Share(a, key), Share(b, key))
  {
    hide Plus;
    if a == [] {
      assert a + b == b;
      PlusLaws(Share(b, key), ZERO, ZERO);
    } else {
      ShareAppend(a[1..], b, key);
      assert (a + b)[1..] == a[1..] + b && (a + b)[0] == a[0];
      PlusLaws(if a[0].key == key then a[0].amount else ZERO, Share(a[1..], key), Share(b, key));
    }
  }

  lemma LastItem(items: seq<Slot>)
    requires items != []
    ensures var last := items[|items| - 1];
            && Total(items) == Plus(Total(items[..|items| - 1]), last.amount)
            && forall k :: Share(items, k) == Plus(
               Share(items[..|items| - 1], k), if k == last.key then last.amount else ZERO)
  {
    hide Plus;
    var front, last := items[..|items| - 1], items[|items| - 1];
    assert items == front + [last] && [last][1..] == [];
    TotalAppend(front, [last]);
    PlusLaws(last.amount, ZERO, ZERO);
    PlusLaws(ZERO, ZERO, ZERO);
    forall k ensures Share(items, k) == Plus(Share(front, k), if k == last.key then last.amount else ZERO) {
      ShareAppend(front, [last], k);
    }
  }

  /** Conservation: a breakdown adds up to the sum over all items, and each key to its own share. */
  lemma {:induction false} BreakdownAgrees(items: seq<Slot>)
    ensures Total(BumpAll([], items)) == Total(items)
    ensures forall k :: Share(BumpAll([], items), k) == Share(items, k)
    decreases |items|
  {
    if items != [] {
      hide Plus;
      var front, last := items[..|items| - 1], items[|items| - 1];
      var slots := BumpAll([], front);
      BreakdownAgrees(front);
      LastItem(items);
      BumpTotal(slots, last.key, last.amount);
      forall k ensures Share(BumpAll([], items), k) == Share(items, k) {
        BumpShare(slots, last.key, last.amount, k);
      }
    }
  }

  /** It has one slot for each key that occurs, and no other. */
  lemma {:induction false} BreakdownKeys(items: seq<Slot>)
    ensures OneSlotPerKey(BumpAll([], items))
    ensures forall k :: HasKey(BumpAll([], items), k) <==> HasKey(items, k)
    decreases |items|
  {
    if items != [] {
      hide Plus;
      var front, last := items[..|items| - 1], items[|items| - 1];
      BreakdownKeys(front);
      BumpKeys(BumpAll([], front), last.key, last.amount);
      forall k ensures HasKey(items, k) <==> HasKey(front, k) || k == last.key {
        if i :| 0 <= i < |items| && items[i].key == k && i < |front| {
          assert front[i].key == k;
        }
        if i :| 0 <= i < |front| && front[i].key == k {
          assert items[i].key == k;
        }
        assert items[|items| - 1].key == last.key;
      }
    }
  }

  /** With one slot per key, the slot of a key holds exactly the key's share of the items. */
  lemma {:induction false} SlotIsShare(slots: Slots, i: nat)
    requires OneSlotPerKey(slots) && i < |slots|
    ensures Share(slots, slots[i].key) == slots[i].amount
  {
    KeyOfHead(slots);
    if i == 0 {
      NoShare(slots[1..], slots[0].key);
    } else {
      assert slots[1..][i - 1] == slots[i];
      assert HasKey(slots[1..], slots[i].key);
      SlotIsShare(slots[1..], i - 1);
    }
  }

  lemma {:induction false} NoShare(slots: Slots, key: string)
    requires !HasKey(slots, key)
    ensures Share(slots, key) == ZERO
  {
    if slots != [] {
      KeyOfHead(slots);
      NoShare(slots[1..], key);
    }
  }

  function Keyed(items: seq<Slot>, key: string): seq<Slot> {
    Select(items, (item: Slot) => item.key == key)
  }

  /** A breakdown, spelled out: one slot for each key that occurs, with the sum of that key's items. */
  lemma BreakdownMeans(items: seq<Slot>)
    ensures var slots := BumpAll([], items);
            && OneSlotPerKey(slots) && (forall key :: HasKey(slots, key) <==> HasKey(items, key))
            && forall x | x in slots :: x.amount == Total(Keyed(items, x.key))
  {
    var slots := BumpAll([], items);
    BreakdownKeys(items);
    BreakdownAgrees(items);
    forall x | x in slots ensures x.amount == Total(Keyed(items, x.key)) {
      var i :| 0 <= i < |slots| && slots[i] == x;
      SlotIsShare(slots, i);
      ShareIsKeyed(items, x.key);
    }
  }

  lemma {:induction false} ShareIsKeyed(items: seq<Slot>, key: string)
    ensures Share(items, key) == Total(Keyed(items, key))
  {
    if items != [] {
      ShareIsKeyed(items[1..], key);
      hide Share, Total, Keyed;
      FirstIsKeyed(items[0], items[1..], key);
      assert items == [items[0]] + items[1..];
    }
  }

  lemma FirstIsKeyed(item: Slot, rest: seq<Slot>, key: string)
    requires Share(rest, key) == Total(Keyed(rest, key))
    ensures Share([item] + rest, key) == Total(Keyed([item] + rest, key))
  {
    KeyedFirst(item, rest, key);
    hide *;
    FirstItem(item, rest, key);
    FirstItem(item, Keyed(rest, key), key);
    PlusLaws(Total(Keyed(rest, key)), ZERO, ZERO);
  }

  lemma KeyedFirst(item: Slot, rest: seq<Slot>, key: string)
    ensures Keyed([item] + rest, key) == if item.key == key then [item] + Keyed(rest, key) else Keyed(rest, key)
  {
    assert ([item] + rest)[1..] == rest && [] + Keyed(rest, key) == Keyed(rest, key);
  }

  lemma FirstItem(item: Slot, rest: seq<Slot>, key: string)
    ensures Total([item] + rest) == Plus(item.amount, Total(rest))
    ensures Share([item] + rest, key) == Plus(if item.key == key then item.amount else ZERO, Share(rest, key))
  {
    assert ([item] + rest)[1..] == rest;
  }

  // ----- sorting keeps the totals --------------------------------------------------------------------------

  lemma {:induction false} InsertKeepsTotal(x: Slot, s: seq<Slot>, leq: (Slot, Slot) -> bool)
    ensures Total(Insert(x, s, leq)) == Plus(x.amount, Total(s))
  {
    var r := Insert(x, s, leq);
    if s == [] || leq(x, s[0]) {
      assert s == [] ==> r[1..] == [];
      assert s != [] ==> r[1..] == s;
    } else {
      InsertKeepsTotal(x, s[1..], leq);
      assert r[1..] == Insert(x, s[1..], leq);
    }
  }

  lemma {:induction false} SortKeepsTotal(s: seq<Slot>, leq: (Slot, Slot) -> bool)
    ensures Total(Sort(s, leq)) == Total(s)
  {
    if s != [] {
      SortKeepsTotal(s[1..], leq);
      InsertKeepsTotal(s[0], Sort(s[1..], leq), leq);
    }
  }

  // ----- the three projections -------------------------------------------------------------------------------

  function InvocationItem(inv: Invocation): Slot {
    Slot(inv.agent, Amount(1, inv.spend.GetOr(0.0), inv.prompt.GetOr(0), inv.completion.GetOr(0)))
  }

  function InvocationItems(invs: seq<Invocation>): seq<Slot> {
    if invs == [] then [] else InvocationItems(invs[..|invs| - 1]) + [InvocationItem(invs[|invs| - 1])]
  }

  function LlmItems(rs: seq<Record>): seq<Slot> {
    if rs == [] then [] else LlmItems(rs[..|rs| - 1]) + InvocationItems(rs[|rs| - 1].invocations)
  }

  /** What each experiment spent, in the order the records came. */
  function PerExperiment(rs: seq<Record>): seq<Slot> {
    if rs == [] then []
    else PerExperiment(rs[..|rs| - 1]) + [Slot(rs[|rs| - 1].id, Total(InvocationItems(rs[|rs| - 1].invocations)))]
  }

  predicate BySpend(a: Slot, b: Slot) {
    a.amount.sum > b.amount.sum || (a.amount.sum == b.amount.sum && a.amount.count >= b.amount.count)
  }

  /** Totals, per agent and per experiment, in one walk. */
  method GetLlm(rs: seq<Record>) returns (totals: Amount, byAgent: Slots, byExperiment: seq<Slot>)
    ensures totals == Total(LlmItems(rs)) && byExperiment == PerExperiment(rs)
    ensures byAgent == Sort(BumpAll([], LlmItems(rs)), BySpend)
  {
    totals, byAgent, byExperiment := ZERO, [], [];
    for n := 0 to |rs|
      invariant totals == Total(LlmItems(rs[..n])) && byExperiment == PerExperiment(rs[..n])
      invariant byAgent == BumpAll([], LlmItems(rs[..n]))
    {
      assert rs[..n + 1][..n] == rs[..n];
      var mine;
      totals, byAgent, mine := AddRecord(rs[n], totals, byAgent, LlmItems(rs[..n]));
      byExperiment := byExperiment + [Slot(rs[n].id, mine)];
    }
    assert rs[..|rs|] == rs;
    byAgent := Sort(byAgent, BySpend);
  }

  method AddRecord(r: Record, totals: Amount, slots: Slots, ghost before: seq<Slot>)
    returns (totals': Amount, slots': Slots, mine: Amount)
    requires totals == Total(before) && slots == BumpAll([], before)
    ensures var items := before + InvocationItems(r.invocations);
            totals' == Total(items) && slots' == BumpAll([], items)
    ensures mine == Total(InvocationItems(r.invocations))
  {
    hide Plus, Total, BumpAll;
    NothingYet();
    totals', slots', mine := totals, slots, ZERO;
    assert before + [] == before;
    for k := 0 to |r.invocations|
      invariant totals' == Total(before + InvocationItems(r.invocations[..k]))
      invariant slots' == BumpAll([], before + InvocationItems(r.invocations[..k]))
      invariant mine == Total(InvocationItems(r.invocations[..k]))
    {
      var item := InvocationItem(r.invocations[k]);
      ghost var seen := InvocationItems(r.invocations[..k]);
      assert r.invocations[..k + 1][..k] == r.invocations[..k];
      assert InvocationItems(r.invocations[..k + 1]) == seen + [item];
      assert before + (seen + [item]) == (before + seen) + [item];
      OneMore(before + seen, item);
      OneMore(seen, item);
      totals', mine := Plus(totals', item.amount), Plus(mine, item.amount);
      slots' := Bump(slots', item.key, item.amount);
    }
    assert r.invocations[..|r.invocations|] == r.invocations;
  }

  lemma NothingYet()
    ensures Total([]) == ZERO
  {
  }

  lemma OneMore(items: seq<Slot>, item: Slot)
    ensures Total(items + [item]) == Plus(Total(items), item.amount)
    ensures BumpAll([], items + [item]) == Bump(BumpAll([], items), item.key, item.amount)
  {
    var more := items + [item];
    LastItem(more);
    assert more[..|more| - 1] == items && more[|more| - 1] == item;
  }

  /** Spend, tokens and invocation counts agree three ways: in total, over agents, over experiments. */
  lemma LlmRollupsAgree(rs: seq<Record>)
    ensures Total(Sort(BumpAll([], LlmItems(rs)), BySpend)) == Total(LlmItems(rs))
    ensures Total(PerExperiment(rs)) == Total(LlmItems(rs))
  {
    SortKeepsTotal(BumpAll([], LlmItems(rs)), BySpend);
    BreakdownAgrees(LlmItems(rs));
    PerExperimentTotal(rs);
  }

  lemma {:induction false} PerExperimentTotal(rs: seq<Record>)
    ensures Total(PerExperiment(rs)) == Total(LlmItems(rs))
    decreases |rs|
  {
    if rs != [] {
      hide Plus;
      var front, r := rs[..|rs| - 1], rs[|rs| - 1];
      PerExperimentTotal(front);
      var slot := Slot(r.id, Total(InvocationItems(r.invocations)));
      TotalAppend(PerExperiment(front), [slot]);
      assert [slot][1..] == [];
      PlusLaws(slot.amount, ZERO, ZERO);
      TotalAppend(LlmItems(front), InvocationItems(r.invocations));
    }
  }

  // ----- what a slot holds -------------------------------------------------------------------------------------

  /** The numbers reported by these invocations; what is not reported counts as nothing. */
  function Spends(invs: seq<Invocation>): (r: seq<real>)
    ensures |r| == |invs|
    ensures forall i | 0 <= i < |invs| :: r[i] == if invs[i].spend.Some? then invs[i].spend.value else 0.0
  {
    seq(|invs|, i requires 0 <= i < |invs| => invs[i].spend.GetOr(0.0))
  }

  function Tokens(invs: seq<Invocation>, prompts: bool): nat {
    if invs == [] then 0
    else
      var reported := if prompts then invs[0].prompt else invs[0].completion;
      (if reported.Some? then reported.value else 0) + Tokens(invs[1..], prompts)
  }

  /** How many they are, and what they report in all. */
  function Reported(invs: seq<Invocation>): Amount {
    Amount(|invs|, Sum(Spends(invs)), Tokens(invs, true), Tokens(invs, false))
  }

  lemma ReportedMore(first: Invocation, rest: seq<Invocation>)
    ensures Reported([first] + rest) == Plus(InvocationItem(first).amount, Reported(rest))
  {
    assert ([first] + rest)[1..] == rest && Spends([first] + rest)[1..] == Spends(rest);
  }

  function AllInvocations(rs: seq<Record>): seq<Invocation> {
    if rs == [] then [] else rs[0].invocations + AllInvocations(rs[1..])
  }

  function Of(invs: seq<Invocation>, agent: string): seq<Invocation> {
    Select(invs, (inv: Invocation) => inv.agent == agent)
  }

  lemma {:induction false} InvocationItemsOn(a: seq<Invocation>, b: seq<Invocation>)
    ensures InvocationItems(a + b) == InvocationItems(a) + InvocationItems(b)
    decreases |b|
  {
    if b == [] {
      assert a + b == a;
    } else {
      var front := b[..|b| - 1];
      assert (a + b)[..|a + b| - 1] == a + front;
      InvocationItemsOn(a, front);
    }
  }

  lemma {:induction false} LlmItemsAre(rs: seq<Record>)
    ensures LlmItems(rs) == InvocationItems(AllInvocations(rs))
    decreases |rs|
  {
    if rs != [] {
      var front, r := rs[..|rs| - 1], rs[|rs| - 1];
      LlmItemsAre(front);
      AllInvocationsMore(front, r);
      assert rs == front + [r];
      InvocationItemsOn(AllInvocations(front), r.invocations);
    }
  }

  lemma {:induction false} AllInvocationsMore(rs: seq<Record>, r: Record)
    ensures AllInvocations(rs + [r]) == AllInvocations(rs) + r.invocations
  {
    if rs == [] {
      assert [r][1..] == [] && r.invocations + [] == r.invocations;
    } else {
      AllInvocationsMore(rs[1..], r);
      assert (rs + [r])[1..] == rs[1..] + [r];
      assert rs[0].invocations + (AllInvocations(rs[1..]) + r.invocations)
          == rs[0].invocations + AllInvocations(rs[1..]) + r.invocations;
    }
  }

  lemma SplitFirst(invs: seq<Invocation>)
    requires invs != []
    ensures InvocationItems(invs) == [InvocationItem(invs[0])] + InvocationItems(invs[1..])
  {
    assert invs == [invs[0]] + invs[1..] && [invs[0]][..0] == [];
    InvocationItemsOn([invs[0]], invs[1..]);
  }

  lemma OfFirst(invs: seq<Invocation>, agent: string)
    requires invs != []
    ensures Of(invs, agent) == if invs[0].agent == agent then [invs[0]] + Of(invs[1..], agent) else Of(invs[1..], agent)
  {
    assert [] + Of(invs[1..], agent) == Of(invs[1..], agent);
  }

  lemma NothingReported(agent: string)
    ensures InvocationItems([]) == [] && Of([], agent) == [] && Reported([]) == ZERO
    ensures Total([]) == ZERO && Share([], agent) == ZERO
  {
  }

  /** An agent's share is what its own invocations report, each counted once. */
  lemma {:induction false} ShareIs(invs: seq<Invocation>, agent: string)
    ensures Share(InvocationItems(invs), agent) == Reported(Of(invs, agent))
  {
    hide Plus, Reported, InvocationItems, InvocationItem, Share, Of;
    NothingReported(agent);
    if invs != [] {
      var rest := Of(invs[1..], agent);
      ShareIs(invs[1..], agent);
      SplitFirst(invs);
      FirstItem(InvocationItem(invs[0]), InvocationItems(invs[1..]), agent);
      KeyOfItem(invs[0]);
      ReportedMore(invs[0], rest);
      PlusLaws(Reported(rest), ZERO, ZERO);
      OfFirst(invs, agent);
    }
  }

  lemma KeyOfItem(inv: Invocation)
    ensures InvocationItem(inv).key == inv.agent
  {
  }

  lemma {:induction false} TotalIs(invs: seq<Invocation>)
    ensures Total(InvocationItems(invs)) == Reported(invs)
  {
    hide Plus, Reported, InvocationItems, InvocationItem, Total, Share;
    NothingReported("");
    if invs != [] {
      TotalIs(invs[1..]);
      SplitFirst(invs);
      FirstItem(InvocationItem(invs[0]), InvocationItems(invs[1..]), "");
      ReportedMore(invs[0], invs[1..]);
      assert invs == [invs[0]] + invs[1..];
    }
  }

  /** The LLM rollup, spelled out: the totals are those of all invocations, each agent that made one has one
      slot, with what its invocations report, the biggest spender first; and each experiment has what its
      own invocations report, in the order the records came. */
  lemma LlmRollupMeans(rs: seq<Record>)
    ensures var all, byAgent := AllInvocations(rs), Sort(BumpAll([], LlmItems(rs)), BySpend);
            && Total(LlmItems(rs)) == Reported(all)
            && OneSlotPerKey(byAgent)
            && (forall agent :: HasKey(byAgent, agent) <==> exists inv | inv in all :: inv.agent == agent)
            && (forall i | 0 <= i < |byAgent| :: byAgent[i].amount == Reported(Of(all, byAgent[i].key)))
            && (forall i, j | 0 <= i < j < |byAgent| ::
                  var a, b := byAgent[i].amount, byAgent[j].amount;
                  a.sum > b.sum || (a.sum == b.sum && a.count >= b.count))
    ensures |PerExperiment(rs)| == |rs|
    ensures forall i | 0 <= i < |rs| :: PerExperiment(rs)[i] == Slot(rs[i].id, Reported(rs[i].invocations))
  {
    var all, items := AllInvocations(rs), LlmItems(rs);
    var slots := BumpAll([], items);
    LlmItemsAre(rs);
    TotalIs(all);
    AgentSlots(all);
    PerExperimentIs(rs);
    SortKeepsSlots(slots);
  }

  lemma AgentSlots(all: seq<Invocation>)
    ensures var slots := BumpAll([], InvocationItems(all));
            && OneSlotPerKey(slots)
            && (forall agent :: HasKey(slots, agent) <==> exists inv | inv in all :: inv.agent == agent)
            && forall x | x in slots :: x.amount == Reported(Of(all, x.key))
  {
    var items := InvocationItems(all);
    var slots := BumpAll([], items);
    BreakdownKeys(items);
    BreakdownAgrees(items);
    forall agent ensures HasKey(slots, agent) <==> exists inv | inv in all :: inv.agent == agent {
      ItemsHaveKeys(all, agent);
    }
    forall x | x in slots ensures x.amount == Reported(Of(all, x.key)) {
      var i :| 0 <= i < |slots| && slots[i] == x;
      SlotIsShare(slots, i);
      ShareIs(all, x.key);
    }
  }

  lemma {:induction false} ItemsHaveKeys(invs: seq<Invocation>, agent: string)
    ensures HasKey(InvocationItems(invs), agent) <==> exists inv | inv in invs :: inv.agent == agent
  {
    if invs != [] {
      SplitFirst(invs);
      KeyOfHead(InvocationItems(invs));
      assert InvocationItems(invs)[1..] == InvocationItems(invs[1..]);
      ItemsHaveKeys(invs[1..], agent);
      assert forall x :: x in invs <==> x == invs[0] || x in invs[1..];
    }
  }

  lemma {:induction false} PerExperimentIs(rs: seq<Record>)
    ensures |PerExperiment(rs)| == |rs|
    ensures forall i | 0 <= i < |rs| :: PerExperiment(rs)[i] == Slot(rs[i].id, Reported(rs[i].invocations))
    decreases |rs|
  {
    if rs != [] {
      PerExperimentIs(rs[..|rs| - 1]);
      TotalIs(rs[|rs| - 1].invocations);
    }
  }

  /** Sorting keeps the slots, and puts the biggest spender first. */
  lemma SortKeepsSlots(slots: Slots)
    ensures var sorted := Sort(slots, BySpend);
            && (OneSlotPerKey(slots) ==> OneSlotPerKey(sorted))
            && (forall x :: x in sorted <==> x in slots)
            && (forall key :: HasKey(sorted, key) <==> HasKey(slots, key))
            && forall i, j | 0 <= i < j < |sorted| ::
                 var a, b := sorted[i].amount, sorted[j].amount;
                 a.sum > b.sum || (a.sum == b.sum && a.count >= b.count)
  {
    var sorted := Sort(slots, BySpend);
    SortOrdered(slots, BySpend);
    SortMembers(slots, BySpend);
    assert forall i, j | 0 <= i < j < |sorted| :: BySpend(sorted[i], sorted[j]);
    SortKeepsKeys(slots, BySpend);
  }

  lemma {:induction false} SortKeepsKeys(slots: Slots, leq: (Slot, Slot) -> bool)
    ensures forall key :: HasKey(Sort(slots, leq), key) <==> HasKey(slots, key)
    ensures OneSlotPerKey(slots) ==> OneSlotPerKey(Sort(slots, leq))
  {
    if slots != [] {
      KeyOfHead(slots);
      SortKeepsKeys(slots[1..], leq);
      InsertKeepsKeys(slots[0], Sort(slots[1..], leq), leq);
    }
  }

  lemma {:induction false} InsertKeepsKeys(x: Slot, s: Slots, leq: (Slot, Slot) -> bool)
    ensures forall key :: HasKey(Insert(x, s, leq), key) <==> x.key == key || HasKey(s, key)
    ensures OneSlotPerKey(s) && !HasKey(s, x.key) ==> OneSlotPerKey(Insert(x, s, leq))
  {
    var r := Insert(x, s, leq);
    KeyOfHead(r);
    if s == [] || leq(x, s[0]) {
      assert r[1..] == s;
    } else {
      KeyOfHead(s);
      InsertKeepsKeys(x, s[1..], leq);
      assert r[1..] == Insert(x, s[1..], leq);
    }
  }

  // ----- findings ------------------------------------------------------------------------------------------------

  /** The bucket of a confidence; each one is closed below, and 1.0 belongs to the last. */
  function BucketFor(c: real): (b: nat)
    ensures b < 5
    ensures 0.0 <= c <= 1.0 ==> b as real / 5.0 <= c && (c < (b + 1) as real / 5.0 || (b == 4 && c == 1.0))
  {
    if c < 0.2 then 0 else if c < 0.4 then 1 else if c < 0.6 then 2 else if c < 0.8 then 3 else 4
  }

  function HypothesesOf(rs: seq<Record>): seq<Hypothesis> {
    if rs == [] then [] else HypothesesOf(rs[..|rs| - 1]) + rs[|rs| - 1].diagnosis.GetOr([])
  }

  function ClassItems(hs: seq<Hypothesis>): seq<Slot> {
    if hs == [] then []
    else ClassItems(hs[..|hs| - 1]) + [Slot(hs[|hs| - 1].fixClass, Amount(1, hs[|hs| - 1].confidence, 0, 0))]
  }

  function InBucket(hs: seq<Hypothesis>, b: nat): nat {
    if hs == [] then 0 else InBucket(hs[..|hs| - 1], b) + (if BucketFor(hs[|hs| - 1].confidence) == b then 1 else 0)
  }

  method GetFindings(rs: seq<Record>) returns (total: nat, confSum: real, byClass: Slots, histogram: seq<nat>)
    ensures total == |HypothesesOf(rs)| && Amount(total, confSum, 0, 0) == Total(ClassItems(HypothesesOf(rs)))
    ensures byClass == BumpAll([], ClassItems(HypothesesOf(rs)))
    ensures |histogram| == 5 && forall b | 0 <= b < 5 :: histogram[b] == InBucket(HypothesesOf(rs), b)
  {
    var hs: seq<Hypothesis> := [];
    for n := 0 to |rs|
      invariant hs == HypothesesOf(rs[..n])
    {
      assert rs[..n + 1][..n] == rs[..n];
      if rs[n].diagnosis.Some? {
        hs := hs + rs[n].diagnosis.value;
      }
    }
    assert rs[..|rs|] == rs;
    total, confSum, byClass := SumConfidences(hs);
    histogram := [0, 0, 0, 0, 0];
    for n := 0 to |hs|
      invariant |histogram| == 5 && forall b | 0 <= b < 5 :: histogram[b] == InBucket(hs[..n], b)
    {
      assert hs[..n + 1][..n] == hs[..n];
      var b := BucketFor(hs[n].confidence);
      histogram := histogram[b := histogram[b] + 1];
    }
    assert hs[..|hs|] == hs;
  }

  method SumConfidences(hs: seq<Hypothesis>) returns (total: nat, confSum: real, byClass: Slots)
    ensures total == |hs| && Amount(total, confSum, 0, 0) == Total(ClassItems(hs))
    ensures byClass == BumpAll([], ClassItems(hs))
  {
    total, confSum, byClass := 0, 0.0, [];
    for n := 0 to |hs|
      invariant total == n && Amount(total, confSum, 0, 0) == Total(ClassItems(hs[..n]))
      invariant byClass == BumpAll([], ClassItems(hs[..n]))
    {
      var h := hs[n];
      assert hs[..n + 1][..n] == hs[..n];
      OneMore(ClassItems(hs[..n]), Slot(h.fixClass, Amount(1, h.confidence, 0, 0)));
      total, confSum := total + 1, confSum + h.confidence;
      byClass := Bump(byClass, h.fixClass, Amount(1, h.confidence, 0, 0));
    }
    assert hs[..|hs|] == hs;
  }

  /** The histogram and the classes each account for every hypothesis exactly once. */
  lemma FindingsAgree(hs: seq<Hypothesis>)
    ensures InBucket(hs, 0) + InBucket(hs, 1) + InBucket(hs, 2) + InBucket(hs, 3) + InBucket(hs, 4) == |hs|
    ensures Total(BumpAll([], ClassItems(hs))) == Total(ClassItems(hs)) && Total(ClassItems(hs)).count == |hs|
  {
    BucketsPartition(hs);
    BreakdownAgrees(ClassItems(hs));
    ClassCount(hs);
  }

  lemma {:induction false} BucketsPartition(hs: seq<Hypothesis>)
    ensures InBucket(hs, 0) + InBucket(hs, 1) + InBucket(hs, 2) + InBucket(hs, 3) + InBucket(hs, 4) == |hs|
    decreases |hs|
  {
    if hs != [] {
      BucketsPartition(hs[..|hs| - 1]);
      var b := BucketFor(hs[|hs| - 1].confidence);
      assert b == 0 || b == 1 || b == 2 || b == 3 || b == 4;
    }
  }

  lemma {:induction false} ClassCount(hs: seq<Hypothesis>)
    ensures Total(ClassItems(hs)).count == |hs|
    decreases |hs|
  {
    if hs != [] {
      ClassCount(hs[..|hs| - 1]);
      var items := ClassItems(hs);
      LastItem(items);
      assert items[..|items| - 1] == ClassItems(hs[..|hs| - 1]);
    }
  }

  /** What the rollup of the findings is over: the hypotheses of every diagnosis, record by record, each
      counted once with its confidence under its class, and once in the band its confidence is in. */
  lemma FindingsItemsAre(rs: seq<Record>)
    ensures HypothesesOf(rs) == AllHypotheses(rs)
    ensures forall hs: seq<Hypothesis> ::
      && |ClassItems(hs)| == |hs|
      && (forall i | 0 <= i < |hs| :: ClassItems(hs)[i] == Slot(hs[i].fixClass, Amount(1, hs[i].confidence, 0, 0)))
      && InBucket(hs, 0) == |Select(hs, (h: Hypothesis) => h.confidence < 0.2)|
      && InBucket(hs, 1) == |Select(hs, (h: Hypothesis) => 0.2 <= h.confidence < 0.4)|
      && InBucket(hs, 2) == |Select(hs, (h: Hypothesis) => 0.4 <= h.confidence < 0.6)|
      && InBucket(hs, 3) == |Select(hs, (h: Hypothesis) => 0.6 <= h.confidence < 0.8)|
      && InBucket(hs, 4) == |Select(hs, (h: Hypothesis) => 0.8 <= h.confidence)|
  {
    HypothesesAre(rs);
    forall hs: seq<Hypothesis>
      ensures |ClassItems(hs)| == |hs|
      ensures forall i | 0 <= i < |hs| :: ClassItems(hs)[i] == Slot(hs[i].fixClass, Amount(1, hs[i].confidence, 0, 0))
      ensures InBucket(hs, 0) == |Select(hs, (h: Hypothesis) => h.confidence < 0.2)|
      ensures InBucket(hs, 1) == |Select(hs, (h: Hypothesis) => 0.2 <= h.confidence < 0.4)|
      ensures InBucket(hs, 2) == |Select(hs, (h: Hypothesis) => 0.4 <= h.confidence < 0.6)|
      ensures InBucket(hs, 3) == |Select(hs, (h: Hypothesis) => 0.6 <= h.confidence < 0.8)|
      ensures InBucket(hs, 4) == |Select(hs, (h: Hypothesis) => 0.8 <= h.confidence)|
    {
      ClassItemsAre(hs);
      BucketCounts(hs, 0, (h: Hypothesis) => h.confidence < 0.2);
      BucketCounts(hs, 1, (h: Hypothesis) => 0.2 <= h.confidence < 0.4);
      BucketCounts(hs, 2, (h: Hypothesis) => 0.4 <= h.confidence < 0.6);
      BucketCounts(hs, 3, (h: Hypothesis) => 0.6 <= h.confidence < 0.8);
      BucketCounts(hs, 4, (h: Hypothesis) => 0.8 <= h.confidence);
    }
  }

  function AllHypotheses(rs: seq<Record>): seq<Hypothesis> {
    if rs == [] then []
    else (if rs[0].diagnosis.Some? then rs[0].diagnosis.value else []) + AllHypotheses(rs[1..])
  }

  lemma {:induction false} HypothesesAre(rs: seq<Record>)
    ensures HypothesesOf(rs) == AllHypotheses(rs)
    decreases |rs|
  {
    if rs != [] {
      var front, r := rs[..|rs| - 1], rs[|rs| - 1];
      HypothesesAre(front);
      AllHypothesesMore(front, r);
      assert rs == front + [r];
    }
  }

  lemma {:induction false} AllHypothesesMore(rs: seq<Record>, r: Record)
    ensures AllHypotheses(rs + [r]) == AllHypotheses(rs) + (if r.diagnosis.Some? then r.diagnosis.value else [])
  {
    if rs == [] {
      assert [r][1..] == [] && AllHypotheses([]) == [];
    } else {
      AllHypothesesMore(rs[1..], r);
      assert (rs + [r])[1..] == rs[1..] + [r] && (rs + [r])[0] == rs[0];
      Associative(if rs[0].diagnosis.Some? then rs[0].diagnosis.value else [], AllHypotheses(rs[1..]),
        if r.diagnosis.Some? then r.diagnosis.value else []);
    }
  }

  lemma Associative<T>(a: seq<T>, b: seq<T>, c: seq<T>)
    ensures a + (b + c) == (a + b) + c
  {
  }

  lemma {:induction false} ClassItemsAre(hs: seq<Hypothesis>)
    ensures |ClassItems(hs)| == |hs|
    ensures forall i | 0 <= i < |hs| :: ClassItems(hs)[i] == Slot(hs[i].fixClass, Amount(1, hs[i].confidence, 0, 0))
    decreases |hs|
  {
    if hs != [] {
      ClassItemsAre(hs[..|hs| - 1]);
    }
  }

  lemma {:induction false} BucketCounts(hs: seq<Hypothesis>, b: nat, band: Hypothesis -> bool)
    requires forall h: Hypothesis :: BucketFor(h.confidence) == b <==> band(h)
    ensures InBucket(hs, b) == |Select(hs, band)|
    decreases |hs|
  {
    if hs != [] {
      var front, h := hs[..|hs| - 1], hs[|hs| - 1];
      BucketCounts(front, b, band);
      assert hs == front + [h] && [h][1..] == [];
      SelectAppend(front, [h], band);
      assert BucketFor(h.confidence) == b <==> band(h);
    }
  }

  // ----- fixes ------------------------------------------------------------------------------------------------------

  function One(key: string): Slot {
    Slot(key, Amount(1, 0.0, 0, 0))
  }

  function FixesOf(rs: seq<Record>): seq<Record> {
    if rs == [] then [] else FixesOf(rs[..|rs| - 1]) + (if rs[|rs| - 1].fix.Some? then [rs[|rs| - 1]] else [])
  }

  function ActionItems(rs: seq<Record>): seq<Slot> {
    if rs == [] then []
    else ActionItems(rs[..|rs| - 1]) + (if rs[|rs| - 1].fix.Some? then [One(rs[|rs| - 1].fix.value.action)] else [])
  }

  function DayItems(rs: seq<Record>): seq<Slot> {
    if rs == [] then [] else DayItems(rs[..|rs| - 1]) + (if rs[|rs| - 1].fix.Some? then [One(rs[|rs| - 1].day)] else [])
  }

  method GetFixes(rs: seq<Record>) returns (proposals: nat, byAction: Slots, byDay: Slots)
    ensures proposals == |FixesOf(rs)|
    ensures byAction == BumpAll([], ActionItems(rs)) && byDay == BumpAll([], DayItems(rs))
  {
    proposals, byAction, byDay := 0, [], [];
    for n := 0 to |rs|
      invariant proposals == |FixesOf(rs[..n])|
      invariant byAction == BumpAll([], ActionItems(rs[..n])) && byDay == BumpAll([], DayItems(rs[..n]))
    {
      assert rs[..n + 1][..n] == rs[..n];
      ghost var actions, days := ActionItems(rs[..n + 1]), DayItems(rs[..n + 1]);
      if rs[n].fix.Some? {
        assert actions[..|actions| - 1] == ActionItems(rs[..n]) && days[..|days| - 1] == DayItems(rs[..n]);
        proposals := proposals + 1;
        byAction := Bump(byAction, rs[n].fix.value.action, Amount(1, 0.0, 0, 0));
        byDay := Bump(byDay, rs[n].day, Amount(1, 0.0, 0, 0));
      } else {
        assert actions == ActionItems(rs[..n]) && days == DayItems(rs[..n]);
      }
    }
    assert rs[..|rs|] == rs;
  }

  /** Proposals are counted once by action and once by day. */
  lemma FixesAgree(rs: seq<Record>)
    ensures Total(BumpAll([], ActionItems(rs))).count == |FixesOf(rs)|
    ensures Total(BumpAll([], DayItems(rs))).count == |FixesOf(rs)|
  {
    BreakdownAgrees(ActionItems(rs));
    BreakdownAgrees(DayItems(rs));
    FixCounts(rs);
  }

  lemma {:induction false} FixCounts(rs: seq<Record>)
    ensures Total(ActionItems(rs)).count == |FixesOf(rs)| && Total(DayItems(rs)).count == |FixesOf(rs)|
    decreases |rs|
  {
    if rs != [] {
      var front, r := rs[..|rs| - 1], rs[|rs| - 1];
      FixCounts(front);
      if r.fix.Some? {
        var actions, days := ActionItems(rs), DayItems(rs);
        LastItem(actions);
        LastItem(days);
        assert actions[..|actions| - 1] == ActionItems(front) && days[..|days| - 1] == DayItems(front);
      } else {
        assert ActionItems(rs) == ActionItems(front) && DayItems(rs) == DayItems(front);
      }
    }
  }

  /** What the rollup of the fixes is over: the records with a proposal, each counted once under its action
      and once under its day. */
  lemma {:induction false} FixItemsAre(rs: seq<Record>)
    ensures var fixed := Select(rs, (r: Record) => r.fix.Some?);
            && FixesOf(rs) == fixed && |ActionItems(rs)| == |DayItems(rs)| == |fixed|
            && forall i | 0 <= i < |fixed| ::
                 && fixed[i].fix.Some? && ActionItems(rs)[i] == Slot(fixed[i].fix.value.action, Amount(1, 0.0, 0, 0))
                 && DayItems(rs)[i] == Slot(fixed[i].day, Amount(1, 0.0, 0, 0))
    decreases |rs|
  {
    if rs != [] {
      var front, r := rs[..|rs| - 1], rs[|rs| - 1];
      FixItemsAre(front);
      assert rs == front + [r] && [r][1..] == [];
      SelectAppend(front, [r], (r: Record) => r.fix.Some?);
      assert Select([r], (r: Record) => r.fix.Some?) == if r.fix.Some? then [r] else [];
    }
  }
}

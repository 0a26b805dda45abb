/** Fault injection into a cluster: the in-memory cluster the repository defines as its
    semantics, and the agent that applies, waits, deletes and cleans up. Every await may
    succeed, raise, or be the point where the task is cancelled; a call that raises or is
    cancelled may or may not have taken effect. */
module Chaos {
  import opened Contracts
  import opened Prelude
  import opened Text

  // ----- the cluster ----------------------------------------------------------------------

  datatype Key = Key(api: string, kind: string, namespace: string, name: string)

  datatype Entry = Entry(key: Key, labels: map<string, string>)

  /** A Python dict: entries in insertion order, one per key. */
  type Table = seq<Entry>

  function Keys(t: Table): set<Key> {
    set e | e in t :: e.key
  }

  predicate OneEntryPerKey(t: Table) {
    t == [] || (t[0].key !in Keys(t[1..]) && OneEntryPerKey(t[1..]))
  }

  /** Assigning to a present key keeps its position; a new key goes to the end. */
  function Put(t: Table, e: Entry): Table {
    if t == [] then [e]
    else if t[0].key == e.key then [e] + t[1..]
    else [t[0]] + Put(t[1..], e)
  }

  function Remove(t: Table, key: Key): Table {
    Select(t, (e: Entry) => e.key != key)
  }

  lemma {:induction false} SelectTwice(t: Table, p: Entry -> bool, q: Entry -> bool, both: Entry -> bool)
    requires forall e | e in t :: both(e) <==> p(e) && q(e)
    ensures Select(Select(t, p), q) == Select(t, both)
  {
    if t != [] {
      assert t[0] in t && forall e | e in t[1..] :: e in t;
      SelectTwice(t[1..], p, q, both);
      SelectAppend(if p(t[0]) then [t[0]] else [], Select(t[1..], p), q);
      assert [t[0]][1..] == [];
    }
  }

  lemma {:induction false} PutNew(t: Table, e: Entry)
    requires e.key !in Keys(t)
    ensures Put(t, e) == t + [e]
  {
    if t != [] {
      assert t[0] in t && t[0].key in Keys(t);
      assert forall x | x in t[1..] :: x in t;
      PutNew(t[1..], e);
      assert t + [e] == [t[0]] + (t[1..] + [e]);
    }
  }

  lemma {:induction false} PutMembers(t: Table, e: Entry)
    ensures forall x | x in Put(t, e) :: x == e || x in t
    ensures Keys(Put(t, e)) == Keys(t) + {e.key}
    ensures e in Put(t, e)
  {
    if t != [] {
      assert forall x :: x in t <==> x == t[0] || x in t[1..];
      PutMembers(t[1..], e);
      var r := Put(t, e);
      assert Keys(t) == {t[0].key} + Keys(t[1..]);
      assert r == [r[0]] + r[1..];
      assert forall x :: x in r <==> x == r[0] || x in r[1..];
      assert Keys(r) == {r[0].key} + Keys(r[1..]);
    }
  }

  lemma KeysSplit(t: Table)
    requires t != []
    ensures Keys(t) == {t[0].key} + Keys(t[1..])
  {
    assert forall x :: x in t <==> x == t[0] || x in t[1..];
  }

  /** A key keeps its place, a new one goes to the end. */
  lemma {:induction false} PutKeepsPlaces(t: Table, e: Entry)
    ensures KeysOf(Put(t, e)) == if e.key in Keys(t) then KeysOf(t) else KeysOf(t) + [e.key]
  {
    if t == [] {
      assert [e][1..] == [];
    } else {
      KeysSplit(t);
      hide Keys;
      if t[0].key == e.key {
        assert ([e] + t[1..])[1..] == t[1..];
      } else {
        PutKeepsPlaces(t[1..], e);
        assert ([t[0]] + Put(t[1..], e))[1..] == Put(t[1..], e);
        assert [t[0].key] + (KeysOf(t[1..]) + [e.key]) == [t[0].key] + KeysOf(t[1..]) + [e.key];
      }
    }
  }

  /** Writing an entry that a selection drops, over another that it drops, is invisible to it. */
  lemma {:induction false} PutUnseen(t: Table, e: Entry, keep: Entry -> bool)
    requires !keep(e) && forall x | x in t && x.key == e.key :: !keep(x)
    ensures Select(Put(t, e), keep) == Select(t, keep)
  {
    if t != [] {
      assert t[0] in t && forall x | x in t[1..] :: x in t;
      if t[0].key == e.key {
        assert ([e] + t[1..])[1..] == t[1..];
      } else {
        PutUnseen(t[1..], e, keep);
        assert ([t[0]] + Put(t[1..], e))[1..] == Put(t[1..], e);
      }
    } else {
      assert [e][1..] == [];
    }
  }

  // ----- what the agent renders ------------------------------------------------------------

  const API := "chaos-mesh.org/v1alpha1"
  const EXPERIMENT_LABEL := "chaos.kosta.dev/experiment-id"
  const FAULT_LABEL := "chaos.kosta.dev/fault-name"

  /** Every kind the cleanup sweeps. */
  const KINDS := ["PodChaos", "NetworkChaos", "IOChaos", "StressChaos", "DNSChaos", "HTTPChaos", "TimeChaos",
    "KernelChaos"]

  /** The fault catalogue and the renderer registry: which names are known, and which kind of
      resource a renderable one becomes. */
  datatype Registry = Registry(catalogue: set<string>, kinds: map<string, string>)

  ghost predicate SweepableKinds(reg: Registry) {
    forall name | name in reg.kinds :: reg.kinds[name] in KINDS
  }

  /** The renderers the repository ships. */
  const RENDERERS := map[
    "pod.kill" := "PodChaos", "pod.failure" := "PodChaos",
    "network.loss" := "NetworkChaos", "network.delay" := "NetworkChaos", "network.partition" := "NetworkChaos",
    "stress.cpu" := "StressChaos", "stress.memory" := "StressChaos"]

  lemma ShippedRenderersAreSweepable(catalogue: set<string>)
    ensures SweepableKinds(Registry(catalogue, RENDERERS))
  {
    assert KINDS[0] == "PodChaos" && KINDS[1] == "NetworkChaos" && KINDS[3] == "StressChaos";
  }

  datatype Target = Target(experimentId: string, namespace: string, faults: seq<FaultSpec>, allowMulti: bool,
                           quietPre: nat, quietPost: nat)

  /** `s[-8:]` */
  function LastEight(s: string): string {
    if |s| <= 8 then s else s[|s| - 8..]
  }

  function ResourceName(fault: string, experimentId: string): string {
    Lower(Replace(Replace(fault, ".", "-"), "_", "-")) + "-" + LastEight(experimentId)
  }

  function Render(fault: FaultSpec, plan: Target, reg: Registry): Entry
    requires fault.name in reg.kinds
  {
    Entry(Key(API, reg.kinds[fault.name], plan.namespace, ResourceName(fault.name, plan.experimentId)),
          map[EXPERIMENT_LABEL := plan.experimentId, FAULT_LABEL := fault.name])
  }

  /** Experiments whose ids differ in their last eight characters never share a resource name. */
  lemma SuffixSeparatesNames(f: string, id: string, f': string, id': string)
    requires |id| >= 8 && |id'| >= 8 && LastEight(id) != LastEight(id')
    ensures ResourceName(f, id) != ResourceName(f', id')
  {
    var a, b := ResourceName(f, id), ResourceName(f', id');
    assert a[|a| - 8..] == LastEight(id) && b[|b| - 8..] == LastEight(id');
  }

  predicate Swept(plan: Target, e: Entry) {
    && e.key.api == API && e.key.kind in KINDS && e.key.namespace == plan.namespace
    && EXPERIMENT_LABEL in e.labels && e.labels[EXPERIMENT_LABEL] == plan.experimentId
  }

  predicate SweptKind(plan: Target, kind: string, e: Entry) {
    && e.key.api == API && e.key.kind == kind && e.key.namespace == plan.namespace
    && EXPERIMENT_LABEL in e.labels && e.labels[EXPERIMENT_LABEL] == plan.experimentId
  }

  /** Everything the agent creates carries the label and kind its own cleanup looks for. */
  lemma RenderedIsSwept(fault: FaultSpec, plan: Target, reg: Registry)
    requires SweepableKinds(reg) && fault.name in reg.kinds
    ensures Swept(plan, Render(fault, plan, reg))
  {
  }

  /** It is of the fault's kind, in the plan's namespace, labelled with experiment and fault, and named after
      the fault and the end of the experiment's id. */
  lemma RenderedIs(fault: FaultSpec, plan: Target, reg: Registry)
    requires fault.name in reg.kinds
    ensures var e := Render(fault, plan, reg);
            && e.key.api == "chaos-mesh.org/v1alpha1" && e.key.kind == reg.kinds[fault.name]
            && e.key.namespace == plan.namespace && IsSlug(e.key.name, fault.name, plan.experimentId)
            && e.labels == map["chaos.kosta.dev/experiment-id" := plan.experimentId,
                               "chaos.kosta.dev/fault-name" := fault.name]
  {
    NameIsSlug(fault.name, plan.experimentId);
  }

  /** Lower case, with dashes for dots and underscores, a dash, and up to eight characters of the id. */
  ghost predicate IsSlug(name: string, fault: string, experimentId: string) {
    && |name| > |fault| && name[|fault|] == '-'
    && (forall i | 0 <= i < |fault| ::
          name[i] == if fault[i] == '.' || fault[i] == '_' then '-' else LowerChar(fault[i]))
    && name[|fault| + 1..] == if |experimentId| < 8 then experimentId else experimentId[|experimentId| - 8..]
  }

  lemma NameIsSlug(fault: string, experimentId: string)
    ensures IsSlug(ResourceName(fault, experimentId), fault, experimentId)
  {
    ReplaceOne(fault, '.', '-');
    ReplaceOne(Replace(fault, ".", "-"), '_', '-');
  }

  /** What belongs to an experiment, spelled out. */
  lemma SweptMeans(plan: Target, e: Entry)
    ensures Swept(plan, e) <==>
      && e.key.api == "chaos-mesh.org/v1alpha1" && e.key.namespace == plan.namespace
      && e.key.kind in {"PodChaos", "NetworkChaos", "IOChaos", "StressChaos", "DNSChaos", "HTTPChaos", "TimeChaos",
           "KernelChaos"}
      && "chaos.kosta.dev/experiment-id" in e.labels
      && e.labels["chaos.kosta.dev/experiment-id"] == plan.experimentId
  {
    assert forall k :: k in KINDS <==> exists i | 0 <= i < 8 :: KINDS[i] == k;
  }

  // ----- awaits -----------------------------------------------------------------------------

  /** Rendering belongs to `Apply`: a renderer that raises is an apply that fails without landing. */
  datatype Call = Sleep(seconds: nat) | Apply(entry: Entry) | Delete(key: Key) | List(kind: string)

  datatype Outcome = Fine | Fails(landed: bool) | Interrupted(landed: bool)

  /** The n-th await of a task, and what becomes of it. */
  type Oracle = (Call, nat) -> Outcome

  datatype Exit = Normal | Exception | Cancelled

  /** A cluster and what has been awaited so far. */
  datatype World = World(table: Table, calls: seq<Call>)

  function ExitOf(o: Outcome): Exit {
    match o case Fine => Normal case Fails(_) => Exception case Interrupted(_) => Cancelled
  }

  predicate Landed(o: Outcome) {
    match o case Fine => true case Fails(l) => l case Interrupted(l) => l
  }

  /** Sleeping and listing leave the cluster alone. */
  function Awaited(w: World, call: Call): World {
    w.(calls := w.calls + [call])
  }

  function Applied(w: World, e: Entry, o: Outcome): World {
    World(if Landed(o) then Put(w.table, e) else w.table, w.calls + [Apply(e)])
  }

  function Deleted(w: World, key: Key, o: Outcome): World {
    World(if Landed(o) then Remove(w.table, key) else w.table, w.calls + [Delete(key)])
  }

  // ----- the agent, as a function of the world ------------------------------------------------

  /** Apply one fault, wait, delete it. */
  function FaultTurn(w: World, fault: FaultSpec, plan: Target, reg: Registry, oracle: Oracle): (World, Exit)
    requires fault.name in reg.kinds
  {
    var e := Render(fault, plan, reg);
    var applied := oracle(Apply(e), |w.calls|);
    var w1 := Applied(w, e, applied);
    if ExitOf(applied) != Normal then (w1, ExitOf(applied))
    else
      var slept := oracle(Sleep(fault.durationSeconds), |w1.calls|);
      var w2 := Awaited(w1, Sleep(fault.durationSeconds));
      if ExitOf(slept) != Normal then (w2, ExitOf(slept))
      else
        var deleted := oracle(Delete(e.key), |w2.calls|);
        (Deleted(w2, e.key, deleted), ExitOf(deleted))
  }

  predicate AllRenderable(faults: seq<FaultSpec>, reg: Registry) {
    forall i | 0 <= i < |faults| :: faults[i].name in reg.kinds
  }

  function FaultTurns(w: World, faults: seq<FaultSpec>, plan: Target, reg: Registry, oracle: Oracle): (World, Exit)
    requires AllRenderable(faults, reg)
    decreases |faults|
  {
    if faults == [] then (w, Normal)
    else
      var (w1, x) := FaultTurn(w, faults[0], plan, reg, oracle);
      if x != Normal then (w1, x) else FaultTurns(w1, faults[1..], plan, reg, oracle)
  }

  function Pause(w: World, seconds: nat, oracle: Oracle): (World, Exit) {
    if seconds > 0 then (Awaited(w, Sleep(seconds)), ExitOf(oracle(Sleep(seconds), |w.calls|)))
    else (w, Normal)
  }

  /** The guarded part of `execute`. */
  function Injected(w: World, plan: Target, reg: Registry, oracle: Oracle): (World, Exit)
    requires AllRenderable(plan.faults, reg)
  {
    var (w1, x1) := Pause(w, plan.quietPre, oracle);
    if x1 != Normal then (w1, x1)
    else
      var (w2, x2) := FaultTurns(w1, plan.faults, plan, reg, oracle);
      if x2 != Normal then (w2, x2)
      else Pause(w2, plan.quietPost, oracle)
  }

  /** Delete the listed keys; an exception from one delete is swallowed, a cancellation is not. */
  function DeleteListed(w: World, keys: seq<Key>, oracle: Oracle): (World, Exit)
    decreases |keys|
  {
    if keys == [] then (w, Normal)
    else
      var o := oracle(Delete(keys[0]), |w.calls|);
      var w1 := Deleted(w, keys[0], o);
      if ExitOf(o) == Cancelled then (w1, Cancelled) else DeleteListed(w1, keys[1..], oracle)
  }

  function KeysOf(t: Table): seq<Key> {
    if t == [] then [] else [t[0].key] + KeysOf(t[1..])
  }

  function Listing(t: Table, plan: Target, kind: string): seq<Key> {
    KeysOf(Select(t, (e: Entry) => SweptKind(plan, kind, e)))
  }

  function SweepKinds(w: World, plan: Target, kinds: seq<string>, oracle: Oracle): (World, Exit)
    decreases |kinds|
  {
    if kinds == [] then (w, Normal)
    else
      var o := oracle(List(kinds[0]), |w.calls|);
      var w1 := Awaited(w, List(kinds[0]));
      if ExitOf(o) == Cancelled then (w1, Cancelled)
      else if ExitOf(o) == Exception then SweepKinds(w1, plan, kinds[1..], oracle)
      else
        var (w2, x) := DeleteListed(w1, Listing(w1.table, plan, kinds[0]), oracle);
        if x == Cancelled then (w2, x) else SweepKinds(w2, plan, kinds[1..], oracle)
  }

  function Cleaned(w: World, plan: Target, oracle: Oracle): (World, Exit) {
    SweepKinds(w, plan, KINDS, oracle)
  }

  predicate Admissible(plan: Target, reg: Registry) {
    && (forall i | 0 <= i < |plan.faults| :: plan.faults[i].name in reg.catalogue && plan.faults[i].name in reg.kinds)
    && (|plan.faults| <= 1 || plan.allowMulti)
  }

  /** `execute`: Normal means a successful timeline, Exception an unsuccessful one. Only a
      cancellation leaves the function without a timeline. */
  function Executed(w: World, plan: Target, reg: Registry, oracle: Oracle): (World, Exit) {
    if !Admissible(plan, reg) then (w, Exception)
    else
      var (w1, x) := Injected(w, plan, reg, oracle);
      if x != Exception then (w1, x)
      else
        var (w2, y) := Cleaned(w1, plan, oracle);
        (w2, if y == Cancelled then Cancelled else Exception)
  }

  // ----- what the agent guarantees --------------------------------------------------------------

  lemma {:induction false} SelectOneEntry(t: Table, keep: Entry -> bool)
    requires OneEntryPerKey(t)
    ensures OneEntryPerKey(Select(t, keep)) && Keys(Select(t, keep)) <= Keys(t)
  {
    SelectMembers(t, keep);
    if t != [] {
      SelectOneEntry(t[1..], keep);
      var rest := Select(t[1..], keep);
      assert ([t[0]] + rest)[1..] == rest && [] + rest == rest;
    }
  }

  lemma {:induction false} PutOneEntry(t: Table, e: Entry)
    requires OneEntryPerKey(t)
    ensures OneEntryPerKey(Put(t, e))
  {
    if t != [] {
      if t[0].key == e.key {
        assert ([e] + t[1..])[1..] == t[1..];
      } else {
        PutOneEntry(t[1..], e);
        PutMembers(t[1..], e);
        assert ([t[0]] + Put(t[1..], e))[1..] == Put(t[1..], e);
      }
    }
  }

  /** Deletes and lists may be cancelled but never raise. */
  ghost predicate DeletesSucceed(oracle: Oracle) {
    forall call: Call, n: nat | call.Delete? || call.List? :: !oracle(call, n).Fails?
  }

  lemma {:induction false} ListedKeys(t: Table, s: Table)
    ensures forall k :: k in KeysOf(s) <==> k in Keys(s)
  {
    if s != [] {
      ListedKeys(t, s[1..]);
      assert forall e :: e in s <==> e == s[0] || e in s[1..];
      assert Keys(s) == {s[0].key} + Keys(s[1..]);
    }
  }

  lemma {:induction false} DeleteListedExact(w: World, keys: seq<Key>, oracle: Oracle)
    requires DeletesSucceed(oracle)
    ensures var (w1, x) := DeleteListed(w, keys, oracle);
            x != Cancelled ==> w1.table == Select(w.table, (e: Entry) => e.key !in keys)
    decreases |keys|
  {
    if keys == [] {
      SelectAll(w.table, (e: Entry) => e.key !in keys);
    } else {
      var o := oracle(Delete(keys[0]), |w.calls|);
      var w1 := Deleted(w, keys[0], o);
      if ExitOf(o) != Cancelled {
        DeleteListedExact(w1, keys[1..], oracle);
        SelectTwice(w.table, (e: Entry) => e.key != keys[0], (e: Entry) => e.key !in keys[1..],
          (e: Entry) => e.key !in keys);
      }
    }
  }

  lemma {:induction false} EntryOfKey(t: Table, a: Entry, b: Entry)
    requires OneEntryPerKey(t) && a in t && b in t && a.key == b.key
    ensures a == b
  {
    assert forall x | x in t[1..] :: x.key in Keys(t[1..]);
    if t[0] != a && t[0] != b {
      EntryOfKey(t[1..], a, b);
    }
  }

  /** One kind's turn of the sweep removes that kind's labelled entries. */
  lemma SweepOneKind(w: World, plan: Target, kind: string, oracle: Oracle)
    requires OneEntryPerKey(w.table) && DeletesSucceed(oracle)
    ensures var (w1, x) := DeleteListed(w, Listing(w.table, plan, kind), oracle);
            x != Cancelled ==> w1.table == Select(w.table, (e: Entry) => !SweptKind(plan, kind, e))
  {
    var keys := Listing(w.table, plan, kind);
    var listed := Select(w.table, (e: Entry) => SweptKind(plan, kind, e));
    DeleteListedExact(w, keys, oracle);
    ListedKeys(w.table, listed);
    SelectMembers(w.table, (e: Entry) => SweptKind(plan, kind, e));
    forall e | e in w.table ensures e.key !in keys <==> !SweptKind(plan, kind, e) {
      if e.key in keys {
        var f :| f in listed && f.key == e.key;
        EntryOfKey(w.table, e, f);
      }
    }
    SelectSame(w.table, (e: Entry) => e.key !in keys, (e: Entry) => !SweptKind(plan, kind, e));
  }

  predicate SweptBy(plan: Target, kinds: seq<string>, e: Entry) {
    && e.key.api == API && e.key.kind in kinds && e.key.namespace == plan.namespace
    && EXPERIMENT_LABEL in e.labels && e.labels[EXPERIMENT_LABEL] == plan.experimentId
  }

  lemma {:induction false} SweepKindsExact(w: World, plan: Target, kinds: seq<string>, oracle: Oracle)
    requires OneEntryPerKey(w.table) && DeletesSucceed(oracle)
    ensures var (w1, x) := SweepKinds(w, plan, kinds, oracle);
            x != Cancelled ==> w1.table == Select(w.table, (e: Entry) => !SweptBy(plan, kinds, e))
    decreases |kinds|
  {
    if kinds == [] {
      SelectAll(w.table, (e: Entry) => !SweptBy(plan, kinds, e));
    } else {
      var o := oracle(List(kinds[0]), |w.calls|);
      var w1 := Awaited(w, List(kinds[0]));
      if ExitOf(o) == Normal {
        var (w2, x) := DeleteListed(w1, Listing(w1.table, plan, kinds[0]), oracle);
        SweepOneKind(w1, plan, kinds[0], oracle);
        if x != Cancelled {
          SelectOneEntry(w1.table, (e: Entry) => !SweptKind(plan, kinds[0], e));
          SweepKindsExact(w2, plan, kinds[1..], oracle);
          SelectTwice(w.table, (e: Entry) => !SweptKind(plan, kinds[0], e),
            (e: Entry) => !SweptBy(plan, kinds[1..], e), (e: Entry) => !SweptBy(plan, kinds, e));
        }
      }
    }
  }

  /** Cleanup removes exactly the resources of this experiment, in this namespace, of the kinds it
      knows, and leaves every other entry where it was. */
  lemma CleanupIsExact(w: World, plan: Target, oracle: Oracle)
    requires OneEntryPerKey(w.table) && DeletesSucceed(oracle)
    ensures var (w1, x) := Cleaned(w, plan, oracle);
            x != Cancelled ==> w1.table == Select(w.table, (e: Entry) => !Swept(plan, e))
  {
    SweepKindsExact(w, plan, KINDS, oracle);
    SelectSame(w.table, (e: Entry) => !SweptBy(plan, KINDS, e), (e: Entry) => !Swept(plan, e));
  }

  /** The experiment is new to the cluster: nothing carries its label, nothing sits on a name it
      is going to use. */
  ghost predicate NewTo(t: Table, plan: Target, reg: Registry) {
    && OneEntryPerKey(t)
    && (forall e | e in t :: !Swept(plan, e))
    && (forall f | f in plan.faults && f.name in reg.kinds :: Render(f, plan, reg).key !in Keys(t))
  }

  /** At most one resource of the experiment stands in addition to what was there before. */
  ghost predicate AtMostOneLeft(before: Table, after: Table, plan: Target, reg: Registry) {
    after == before
    || exists f | f in plan.faults && f.name in reg.kinds :: after == before + [Render(f, plan, reg)]
  }

  lemma PutRemove(t: Table, e: Entry)
    requires e.key !in Keys(t)
    ensures Remove(Put(t, e), e.key) == t && Remove(t, e.key) == t
  {
    var keep := (x: Entry) => x.key != e.key;
    PutNew(t, e);
    SelectAppend(t, [e], keep);
    SelectAll(t, keep);
    assert [e][1..] == [] && Select([e], keep) == [];
    assert t + [] == t;
  }

  lemma FaultTurnRestores(w: World, fault: FaultSpec, plan: Target, reg: Registry, oracle: Oracle)
    requires NewTo(w.table, plan, reg) && fault in plan.faults && fault.name in reg.kinds
    ensures var (w1, x) := FaultTurn(w, fault, plan, reg, oracle);
            && (x == Normal ==> w1.table == w.table)
            && AtMostOneLeft(w.table, w1.table, plan, reg)
  {
    var e := Render(fault, plan, reg);
    PutNew(w.table, e);
    PutRemove(w.table, e);
  }

  lemma {:induction false} FaultTurnsRestore(
      w: World, faults: seq<FaultSpec>, plan: Target, reg: Registry, oracle: Oracle)
    requires NewTo(w.table, plan, reg) && AllRenderable(faults, reg) && forall f | f in faults :: f in plan.faults
    ensures var (w1, x) := FaultTurns(w, faults, plan, reg, oracle);
            && (x == Normal ==> w1.table == w.table)
            && AtMostOneLeft(w.table, w1.table, plan, reg)
    decreases |faults|
  {
    if faults != [] {
      assert faults[0] in faults && forall f | f in faults[1..] :: f in faults;
      FaultTurnRestores(w, faults[0], plan, reg, oracle);
      var (w1, x) := FaultTurn(w, faults[0], plan, reg, oracle);
      if x == Normal {
        FaultTurnsRestore(w1, faults[1..], plan, reg, oracle);
      }
    }
  }

  lemma InjectedRestores(w: World, plan: Target, reg: Registry, oracle: Oracle)
    requires NewTo(w.table, plan, reg) && AllRenderable(plan.faults, reg)
    ensures var (w1, x) := Injected(w, plan, reg, oracle);
            && (x == Normal ==> w1.table == w.table)
            && AtMostOneLeft(w.table, w1.table, plan, reg)
  {
    var (w1, x1) := Pause(w, plan.quietPre, oracle);
    if x1 == Normal {
      FaultTurnsRestore(w1, plan.faults, plan, reg, oracle);
    }
  }

  lemma CleanupOfOne(w: World, before: Table, plan: Target, reg: Registry, oracle: Oracle)
    requires SweepableKinds(reg) && NewTo(before, plan, reg) && AtMostOneLeft(before, w.table, plan, reg)
    requires DeletesSucceed(oracle)
    ensures var (w1, x) := Cleaned(w, plan, oracle);
            x != Cancelled ==> w1.table == before
  {
    var keep := (e: Entry) => !Swept(plan, e);
    SelectAll(before, keep);
    if w.table != before {
      var f :| f in plan.faults && f.name in reg.kinds && w.table == before + [Render(f, plan, reg)];
      var e := Render(f, plan, reg);
      RenderedIsSwept(f, plan, reg);
      PutNew(before, e);
      PutOneEntry(before, e);
      SelectAppend(before, [e], keep);
      assert [e][1..] == [] && Select([e], keep) == [];
      assert before + [] == before;
    }
    CleanupIsExact(w, plan, oracle);
  }

  /** No fault outlives `execute`: if deletes succeed, every exit that is not a cancellation leaves
      the cluster exactly as it was, on success and on failure alike. */
  lemma ExecuteLeavesNothing(w: World, plan: Target, reg: Registry, oracle: Oracle)
    requires SweepableKinds(reg) && NewTo(w.table, plan, reg) && DeletesSucceed(oracle)
    ensures var (w1, x) := Executed(w, plan, reg, oracle);
            x != Cancelled ==> w1.table == w.table
  {
    if Admissible(plan, reg) {
      InjectedRestores(w, plan, reg, oracle);
      var (w1, x) := Injected(w, plan, reg, oracle);
      if x == Exception {
        CleanupOfOne(w1, w.table, plan, reg, oracle);
      }
    }
  }

  lemma {:induction false} DeleteListedShrinks(
      w: World, before: Table, keys: seq<Key>, plan: Target, reg: Registry, oracle: Oracle)
    requires NewTo(before, plan, reg) && AtMostOneLeft(before, w.table, plan, reg)
    requires forall k | k in keys :: k !in Keys(before)
    ensures AtMostOneLeft(before, DeleteListed(w, keys, oracle).0.table, plan, reg)
    decreases |keys|
  {
    if keys != [] {
      var o := oracle(Delete(keys[0]), |w.calls|);
      var w1 := Deleted(w, keys[0], o);
      RemoveFromLeft(w.table, before, keys[0], plan, reg);
      if ExitOf(o) != Cancelled {
        DeleteListedShrinks(w1, before, keys[1..], plan, reg, oracle);
      }
    }
  }

  lemma RemoveFromLeft(t: Table, before: Table, key: Key, plan: Target, reg: Registry)
    requires NewTo(before, plan, reg) && AtMostOneLeft(before, t, plan, reg) && key !in Keys(before)
    ensures AtMostOneLeft(before, Remove(t, key), plan, reg)
  {
    var keep := (e: Entry) => e.key != key;
    forall e | e in before ensures keep(e) { assert e.key in Keys(before); }
    SelectAll(before, keep);
    if t != before {
      var f :| f in plan.faults && f.name in reg.kinds && t == before + [Render(f, plan, reg)];
      SelectAppend(before, [Render(f, plan, reg)], keep);
      assert [Render(f, plan, reg)][1..] == [];
      assert before + [] == before;
    }
  }

  lemma {:induction false} SweepKindsShrinks(
      w: World, before: Table, plan: Target, reg: Registry, kinds: seq<string>, oracle: Oracle)
    requires NewTo(before, plan, reg) && AtMostOneLeft(before, w.table, plan, reg)
    requires forall k | k in kinds :: k in KINDS
    ensures AtMostOneLeft(before, SweepKinds(w, plan, kinds, oracle).0.table, plan, reg)
    decreases |kinds|
  {
    if kinds != [] {
      assert kinds[0] in kinds && forall k | k in kinds[1..] :: k in kinds;
      var o := oracle(List(kinds[0]), |w.calls|);
      var w1 := Awaited(w, List(kinds[0]));
      if ExitOf(o) == Exception {
        SweepKindsShrinks(w1, before, plan, reg, kinds[1..], oracle);
      } else if ExitOf(o) == Normal {
        var keys := Listing(w1.table, plan, kinds[0]);
        ListedAreNew(w1.table, before, plan, reg, kinds[0]);
        DeleteListedShrinks(w1, before, keys, plan, reg, oracle);
        var (w2, x) := DeleteListed(w1, keys, oracle);
        if x != Cancelled {
          SweepKindsShrinks(w2, before, plan, reg, kinds[1..], oracle);
        }
      }
    }
  }

  lemma ListedAreNew(t: Table, before: Table, plan: Target, reg: Registry, kind: string)
    requires NewTo(before, plan, reg) && AtMostOneLeft(before, t, plan, reg) && kind in KINDS
    ensures forall k | k in Listing(t, plan, kind) :: k !in Keys(before)
  {
    var listed := Select(t, (e: Entry) => SweptKind(plan, kind, e));
    SelectMembers(t, (e: Entry) => SweptKind(plan, kind, e));
    ListedKeys(t, listed);
    forall k | k in Listing(t, plan, kind) ensures k !in Keys(before) {
      var e :| e in listed && e.key == k;
      assert Swept(plan, e) && e !in before;
      if t != before {
        var f :| f in plan.faults && f.name in reg.kinds && t == before + [Render(f, plan, reg)];
        assert e == Render(f, plan, reg);
      }
    }
  }

  /** Whatever raises, fails to be deleted or gets cancelled: at most one resource is ever left
      behind, it carries this experiment's label, and nothing else has changed. */
  lemma ExecuteLeavesAtMostOne(w: World, plan: Target, reg: Registry, oracle: Oracle)
    requires NewTo(w.table, plan, reg)
    ensures AtMostOneLeft(w.table, Executed(w, plan, reg, oracle).0.table, plan, reg)
  {
    if Admissible(plan, reg) {
      InjectedRestores(w, plan, reg, oracle);
      var (w1, x) := Injected(w, plan, reg, oracle);
      if x == Exception {
        SweepKindsShrinks(w1, w.table, plan, reg, KINDS, oracle);
      }
    }
  }

  /** A cancelled injection followed by a completed cleanup leaves nothing either. */
  lemma CleanupAfterCancelLeavesNothing(w: World, plan: Target, reg: Registry, oracle: Oracle, later: Oracle,
      calls: seq<Call>)
    requires SweepableKinds(reg) && NewTo(w.table, plan, reg) && DeletesSucceed(later)
    ensures var left := World(Executed(w, plan, reg, oracle).0.table, calls);
            var (w1, x) := Cleaned(left, plan, later);
            x != Cancelled ==> w1.table == w.table
  {
    ExecuteLeavesAtMostOne(w, plan, reg, oracle);
    CleanupOfOne(World(Executed(w, plan, reg, oracle).0.table, calls), w.table, plan, reg, later);
  }

  lemma FirstTurnStands(w: World, fault: FaultSpec, plan: Target, reg: Registry, oracle: Oracle)
    requires fault.name in reg.kinds && oracle(Apply(Render(fault, plan, reg)), |w.calls|) == Fine
    requires oracle(Sleep(fault.durationSeconds), |w.calls| + 1) == Interrupted(false)
    ensures var (w1, x) := FaultTurn(w, fault, plan, reg, oracle);
            x == Cancelled && w1.table == Put(w.table, Render(fault, plan, reg))
  {
    assert |Applied(w, Render(fault, plan, reg), Fine).calls| == |w.calls| + 1;
  }

  lemma FirstFaultStands(w: World, faults: seq<FaultSpec>, plan: Target, reg: Registry, oracle: Oracle)
    requires AllRenderable(faults, reg) && faults != []
    requires oracle(Apply(Render(faults[0], plan, reg)), |w.calls|) == Fine
    requires oracle(Sleep(faults[0].durationSeconds), |w.calls| + 1) == Interrupted(false)
    ensures var (w1, x) := FaultTurns(w, faults, plan, reg, oracle);
            x == Cancelled && w1.table == Put(w.table, Render(faults[0], plan, reg))
  {
    hide FaultTurn, Put, Render;
    FirstTurnStands(w, faults[0], plan, reg, oracle);
  }

  /** Without that cleanup the property is false: cancelled while it waits for the first fault to
      run its time, `execute` leaves the fault in place although every delete would succeed. */
  lemma CancelledInjectionLeavesFault(w: World, plan: Target, reg: Registry) returns (oracle: Oracle)
    requires NewTo(w.table, plan, reg) && Admissible(plan, reg) && plan.faults != []
    ensures DeletesSucceed(oracle) && Executed(w, plan, reg, oracle).1 == Cancelled
    ensures Executed(w, plan, reg, oracle).0.table == w.table + [Render(plan.faults[0], plan, reg)]
  {
    hide FaultTurns, Render, Put, SweepKinds, NewTo;
    var waited := if plan.quietPre > 0 then Awaited(w, Sleep(plan.quietPre)) else w;
    oracle := (c: Call, n: nat) => if c.Sleep? && n == |waited.calls| + 1 then Interrupted(false) else Fine;
    FirstFaultStands(waited, plan.faults, plan, reg, oracle);
    FirstIsNew(w.table, plan, reg);
  }

  lemma FirstIsNew(t: Table, plan: Target, reg: Registry)
    requires NewTo(t, plan, reg) && Admissible(plan, reg) && plan.faults != []
    ensures Put(t, Render(plan.faults[0], plan, reg)) == t + [Render(plan.faults[0], plan, reg)]
  {
    assert plan.faults[0] in plan.faults;
    PutNew(t, Render(plan.faults[0], plan, reg));
  }

  // ----- without cancellation -----------------------------------------------------------------------

  ghost predicate NeverInterrupts(oracle: Oracle) {
    forall c: Call, n: nat :: !oracle(c, n).Interrupted?
  }

  lemma {:induction false} TurnsAreNotCancelled(
      w: World, faults: seq<FaultSpec>, plan: Target, reg: Registry, oracle: Oracle)
    requires NeverInterrupts(oracle) && AllRenderable(faults, reg)
    ensures FaultTurns(w, faults, plan, reg, oracle).1 != Cancelled
    decreases |faults|
  {
    if faults != [] {
      var (w1, x) := FaultTurn(w, faults[0], plan, reg, oracle);
      if x == Normal {
        TurnsAreNotCancelled(w1, faults[1..], plan, reg, oracle);
      }
    }
  }

  lemma {:induction false} DeletesAreNotCancelled(w: World, keys: seq<Key>, oracle: Oracle)
    requires NeverInterrupts(oracle)
    ensures DeleteListed(w, keys, oracle).1 != Cancelled
    decreases |keys|
  {
    if keys != [] {
      DeletesAreNotCancelled(Deleted(w, keys[0], oracle(Delete(keys[0]), |w.calls|)), keys[1..], oracle);
    }
  }

  lemma {:induction false} SweepsAreNotCancelled(w: World, plan: Target, kinds: seq<string>, oracle: Oracle)
    requires NeverInterrupts(oracle)
    ensures SweepKinds(w, plan, kinds, oracle).1 != Cancelled
    decreases |kinds|
  {
    if kinds != [] {
      var w1 := Awaited(w, List(kinds[0]));
      SweepsAreNotCancelled(w1, plan, kinds[1..], oracle);
      var keys := Listing(w1.table, plan, kinds[0]);
      DeletesAreNotCancelled(w1, keys, oracle);
      SweepsAreNotCancelled(DeleteListed(w1, keys, oracle).0, plan, kinds[1..], oracle);
    }
  }

  lemma ExecuteIsNotCancelled(w: World, plan: Target, reg: Registry, oracle: Oracle)
    requires NeverInterrupts(oracle)
    ensures Executed(w, plan, reg, oracle).1 != Cancelled
  {
    if Admissible(plan, reg) {
      var (w1, x1) := Pause(w, plan.quietPre, oracle);
      TurnsAreNotCancelled(w1, plan.faults, plan, reg, oracle);
      SweepsAreNotCancelled(Injected(w, plan, reg, oracle).0, plan, KINDS, oracle);
    }
  }

  // ----- what is awaited, and when the injection succeeds ---------------------------------------------

  function QuietScript(seconds: nat): seq<Call> {
    if seconds > 0 then [Sleep(seconds)] else []
  }

  function FaultScript(faults: seq<FaultSpec>, plan: Target, reg: Registry): seq<Call>
    requires AllRenderable(faults, reg)
  {
    if faults == [] then []
    else
      var e := Render(faults[0], plan, reg);
      [Apply(e), Sleep(faults[0].durationSeconds), Delete(e.key)] + FaultScript(faults[1..], plan, reg)
  }

  /** An injection in which nothing goes wrong: the quiet window, every fault applied, left to stand for
      its time and deleted, one after the other, and the quiet window again. */
  function Script(plan: Target, reg: Registry): seq<Call>
    requires AllRenderable(plan.faults, reg)
  {
    QuietScript(plan.quietPre) + FaultScript(plan.faults, plan, reg) + QuietScript(plan.quietPost)
  }

  ghost predicate AllFine(oracle: Oracle, from: nat, calls: seq<Call>) {
    forall k | 0 <= k < |calls| :: oracle(calls[k], from + k) == Fine
  }

  /** Awaiting stops at call k, the first that is not fine, and ends as that call does. */
  ghost predicate StopsAt(w: World, r: (World, Exit), script: seq<Call>, oracle: Oracle, k: nat) {
    && k < |script| && AllFine(oracle, |w.calls|, script[..k])
    && r.1 == ExitOf(oracle(script[k], |w.calls| + k)) && r.1 != Normal
    && r.0.calls == w.calls + script[..k + 1]
  }

  /** The calls of a script are awaited in order, all of them or up to the first that is not fine. */
  ghost predicate Follows(w: World, r: (World, Exit), script: seq<Call>, oracle: Oracle) {
    if r.1 == Normal then r.0.calls == w.calls + script && AllFine(oracle, |w.calls|, script)
    else exists k: nat :: StopsAt(w, r, script, oracle, k)
  }

  lemma FollowsOne(w: World, r: (World, Exit), call: Call, oracle: Oracle)
    requires r.0.calls == w.calls + [call] && r.1 == ExitOf(oracle(call, |w.calls|))
    ensures Follows(w, r, [call], oracle)
  {
    if r.1 != Normal {
      assert [call][..1] == [call];
      assert StopsAt(w, r, [call], oracle, 0);
    }
  }

  lemma FollowsNothing(w: World, oracle: Oracle)
    ensures Follows(w, (w, Normal), [], oracle)
  {
    assert w.calls + [] == w.calls;
  }

  lemma FollowsThenStops(w: World, r: (World, Exit), a: seq<Call>, b: seq<Call>, oracle: Oracle)
    requires Follows(w, r, a, oracle) && r.1 != Normal
    ensures Follows(w, r, a + b, oracle)
  {
    var k: nat :| StopsAt(w, r, a, oracle, k);
    assert (a + b)[..k] == a[..k] && (a + b)[..k + 1] == a[..k + 1];
    assert StopsAt(w, r, a + b, oracle, k);
  }

  lemma FineOn(oracle: Oracle, from: nat, a: seq<Call>, b: seq<Call>)
    requires AllFine(oracle, from, a) && AllFine(oracle, from + |a|, b)
    ensures AllFine(oracle, from, a + b)
  {
    forall k | 0 <= k < |a + b| ensures oracle((a + b)[k], from + k) == Fine {
      if k >= |a| {
        assert oracle(b[k - |a|], from + |a| + (k - |a|)) == Fine;
      }
    }
  }

  lemma FollowsOn(w: World, mid: World, r: (World, Exit), a: seq<Call>, b: seq<Call>, oracle: Oracle)
    requires Follows(w, (mid, Normal), a, oracle) && Follows(mid, r, b, oracle)
    ensures Follows(w, r, a + b, oracle)
  {
    if r.1 == Normal {
      assert (w.calls + a) + b == w.calls + (a + b);
      FineOn(oracle, |w.calls|, a, b);
    } else {
      var k: nat :| StopsAt(mid, r, b, oracle, k);
      FineOn(oracle, |w.calls|, a, b[..k]);
      assert (a + b)[..|a| + k] == a + b[..k] && (a + b)[..|a| + k + 1] == a + b[..k + 1];
      assert (w.calls + a) + b[..k + 1] == w.calls + (a + b[..k + 1]);
      assert StopsAt(w, r, a + b, oracle, |a| + k);
    }
  }

  lemma PauseFollows(w: World, seconds: nat, oracle: Oracle)
    ensures Follows(w, Pause(w, seconds, oracle), QuietScript(seconds), oracle)
  {
    if seconds > 0 {
      FollowsOne(w, Pause(w, seconds, oracle), Sleep(seconds), oracle);
    } else {
      FollowsNothing(w, oracle);
    }
  }

  lemma FaultTurnFollows(w: World, fault: FaultSpec, plan: Target, reg: Registry, oracle: Oracle)
    requires fault.name in reg.kinds
    ensures var e := Render(fault, plan, reg);
            Follows(w, FaultTurn(w, fault, plan, reg, oracle),
              [Apply(e), Sleep(fault.durationSeconds), Delete(e.key)], oracle)
  {
    var e := Render(fault, plan, reg);
    var apply, sleep, delete := Apply(e), Sleep(fault.durationSeconds), Delete(e.key);
    var applied := oracle(apply, |w.calls|);
    var w1 := Applied(w, e, applied);
    assert [apply, sleep, delete] == [apply] + ([sleep] + [delete]);
    hide Follows, Put, Remove, Render;
    FollowsOne(w, (w1, ExitOf(applied)), apply, oracle);
    if ExitOf(applied) != Normal {
      FollowsThenStops(w, (w1, ExitOf(applied)), [apply], [sleep] + [delete], oracle);
    } else {
      var slept := oracle(sleep, |w1.calls|);
      var w2 := Awaited(w1, sleep);
      FollowsOne(w1, (w2, ExitOf(slept)), sleep, oracle);
      if ExitOf(slept) != Normal {
        FollowsThenStops(w1, (w2, ExitOf(slept)), [sleep], [delete], oracle);
        FollowsOn(w, w1, (w2, ExitOf(slept)), [apply], [sleep] + [delete], oracle);
      } else {
        var deleted := oracle(delete, |w2.calls|);
        var r := (Deleted(w2, e.key, deleted), ExitOf(deleted));
        FollowsOne(w2, r, delete, oracle);
        FollowsOn(w1, w2, r, [sleep], [delete], oracle);
        FollowsOn(w, w1, r, [apply], [sleep] + [delete], oracle);
      }
    }
  }

  lemma {:induction false} FaultTurnsFollow(
      w: World, faults: seq<FaultSpec>, plan: Target, reg: Registry, oracle: Oracle)
    requires AllRenderable(faults, reg)
    ensures Follows(w, FaultTurns(w, faults, plan, reg, oracle), FaultScript(faults, plan, reg), oracle)
    decreases |faults|
  {
    if faults == [] {
      FollowsNothing(w, oracle);
    } else {
      var e := Render(faults[0], plan, reg);
      var script := [Apply(e), Sleep(faults[0].durationSeconds), Delete(e.key)];
      var rest := FaultScript(faults[1..], plan, reg);
      hide Follows, FaultTurn, Render;
      FaultTurnFollows(w, faults[0], plan, reg, oracle);
      var (w1, x) := FaultTurn(w, faults[0], plan, reg, oracle);
      if x != Normal {
        FollowsThenStops(w, (w1, x), script, rest, oracle);
      } else {
        FaultTurnsFollow(w1, faults[1..], plan, reg, oracle);
        FollowsOn(w, w1, FaultTurns(w1, faults[1..], plan, reg, oracle), script, rest, oracle);
      }
    }
  }

  lemma InjectedFollows(w: World, plan: Target, reg: Registry, oracle: Oracle)
    requires AllRenderable(plan.faults, reg)
    ensures Follows(w, Injected(w, plan, reg, oracle), Script(plan, reg), oracle)
  {
    var pre, faults, post := QuietScript(plan.quietPre), FaultScript(plan.faults, plan, reg),
      QuietScript(plan.quietPost);
    assert pre + faults + post == pre + (faults + post);
    hide Follows, Pause, FaultTurns, FaultScript, QuietScript;
    PauseFollows(w, plan.quietPre, oracle);
    var (w1, x1) := Pause(w, plan.quietPre, oracle);
    if x1 != Normal {
      FollowsThenStops(w, (w1, x1), pre, faults + post, oracle);
    } else {
      FaultTurnsFollow(w1, plan.faults, plan, reg, oracle);
      var (w2, x2) := FaultTurns(w1, plan.faults, plan, reg, oracle);
      if x2 != Normal {
        FollowsThenStops(w1, (w2, x2), faults, post, oracle);
        FollowsOn(w, w1, (w2, x2), pre, faults + post, oracle);
      } else {
        PauseFollows(w2, plan.quietPost, oracle);
        FollowsOn(w1, w2, Pause(w2, plan.quietPost, oracle), faults, post, oracle);
        FollowsOn(w, w1, Pause(w2, plan.quietPost, oracle), pre, faults + post, oracle);
      }
    }
  }

  /** The kinds asked for by these calls. */
  function Asked(calls: seq<Call>): seq<string> {
    if calls == [] then []
    else Asked(calls[..|calls| - 1]) + (if LastOf(calls).value.List? then [LastOf(calls).value.kind] else [])
  }

  lemma AskedMore(calls: seq<Call>, call: Call)
    ensures Asked(calls + [call]) == Asked(calls) + (if call.List? then [call.kind] else [])
  {
    assert (calls + [call])[..|calls|] == calls;
  }

  /** Something of the experiment's that stands after a sweep of these kinds has a cause: listing its kind
      raised, or deleting it did. */
  ghost predicate HasACause(w: World, w1: World, e: Entry, oracle: Oracle) {
    exists i | |w.calls| <= i < |w1.calls| ::
      (w1.calls[i] == List(e.key.kind) || w1.calls[i] == Delete(e.key)) && oracle(w1.calls[i], i).Fails?
  }

  lemma CauseStays(w: World, w1: World, w2: World, e: Entry, oracle: Oracle)
    requires w.calls <= w1.calls <= w2.calls
    ensures HasACause(w, w1, e, oracle) ==> HasACause(w, w2, e, oracle)
    ensures HasACause(w1, w2, e, oracle) ==> HasACause(w, w2, e, oracle)
  {
  }

  /** A delete that raises does not keep the others from being tried. */
  lemma {:induction false} DeleteListedTriesAll(w: World, keys: seq<Key>, oracle: Oracle)
    ensures var (w1, x) := DeleteListed(w, keys, oracle);
            && w.calls <= w1.calls && Asked(w1.calls) == Asked(w.calls) && x != Exception
            && (forall e | e in w1.table :: e in w.table)
            && (x != Cancelled ==> forall e | e in w1.table && e.key in keys :: HasACause(w, w1, e, oracle))
    decreases |keys|
  {
    if keys != [] {
      var call := Delete(keys[0]);
      var o := oracle(call, |w.calls|);
      var w1 := Deleted(w, keys[0], o);
      AskedMore(w.calls, call);
      SelectMembers(w.table, (e: Entry) => e.key != keys[0]);
      if ExitOf(o) != Cancelled {
        DeleteListedTriesAll(w1, keys[1..], oracle);
        var w2 := DeleteListed(w1, keys[1..], oracle).0;
        forall e | e in w2.table && e.key in keys && DeleteListed(w1, keys[1..], oracle).1 != Cancelled
          ensures HasACause(w, w2, e, oracle)
        {
          if e.key in keys[1..] {
            CauseStays(w, w1, w2, e, oracle);
          } else {
            assert e in w1.table && e.key == keys[0];
            assert w1.calls[|w.calls|] == call;
            assert HasACause(w, w1, e, oracle);
            CauseStays(w, w1, w2, e, oracle);
          }
        }
      }
    }
  }

  /** A listing that raises does not keep the other kinds from being swept. */
  lemma {:induction false} SweepTriesAll(w: World, plan: Target, kinds: seq<string>, oracle: Oracle)
    ensures var (w1, x) := SweepKinds(w, plan, kinds, oracle); Tries(w, w1, x, plan, kinds, oracle)
    decreases |kinds|
  {
    if kinds == [] {
      assert Asked(w.calls) + kinds == Asked(w.calls);
    } else {
      hide Tries;
      var w1, x := SweepFirst(w, plan, kinds, oracle);
      if x == Cancelled {
        TriesNoMore(w, w1, plan, kinds, oracle);
      } else {
        SweepTriesAll(w1, plan, kinds[1..], oracle);
        var (w2, y) := SweepKinds(w1, plan, kinds[1..], oracle);
        TriesOn(w, w1, w2, y, plan, kinds, oracle);
      }
    }
  }

  /** These kinds have been asked for, unless the sweep was cancelled, and what is left of them has a cause. */
  ghost predicate Tries(w: World, w1: World, x: Exit, plan: Target, kinds: seq<string>, oracle: Oracle) {
    && w.calls <= w1.calls && x != Exception && (forall e | e in w1.table :: e in w.table)
    && (x != Cancelled ==>
          && Asked(w1.calls) == Asked(w.calls) + kinds
          && forall e | e in w1.table && SweptBy(plan, kinds, e) :: HasACause(w, w1, e, oracle))
  }

  lemma TriesNoMore(w: World, w1: World, plan: Target, kinds: seq<string>, oracle: Oracle)
    requires kinds != [] && Tries(w, w1, Cancelled, plan, kinds[..1], oracle)
    ensures Tries(w, w1, Cancelled, plan, kinds, oracle)
  {
  }

  lemma TriesOn(w: World, w1: World, w2: World, y: Exit, plan: Target, kinds: seq<string>, oracle: Oracle)
    requires kinds != [] && Tries(w, w1, Normal, plan, kinds[..1], oracle) && Tries(w1, w2, y, plan, kinds[1..], oracle)
    ensures Tries(w, w2, y, plan, kinds, oracle)
  {
    assert Asked(w.calls) + kinds[..1] + kinds[1..] == Asked(w.calls) + kinds;
    forall e | e in w2.table && SweptBy(plan, kinds, e) && y != Cancelled ensures HasACause(w, w2, e, oracle) {
      CauseStays(w, w1, w2, e, oracle);
      assert e in w1.table;
      assert SweptBy(plan, kinds[..1], e) || SweptBy(plan, kinds[1..], e);
    }
  }

  /** The first of the kinds. */
  lemma SweepFirst(w: World, plan: Target, kinds: seq<string>, oracle: Oracle) returns (w1: World, x: Exit)
    requires kinds != []
    ensures Tries(w, w1, x, plan, kinds[..1], oracle) && (x != Cancelled ==> x == Normal)
    ensures SweepKinds(w, plan, kinds, oracle)
         == if x == Cancelled then (w1, x) else SweepKinds(w1, plan, kinds[1..], oracle)
  {
    var call := List(kinds[0]);
    var o := oracle(call, |w.calls|);
    var listed := Awaited(w, call);
    AskedMore(w.calls, call);
    assert listed.calls[|w.calls|] == call;
    w1, x := listed, if ExitOf(o) == Cancelled then Cancelled else Normal;
    if ExitOf(o) == Normal {
      w1, x := SweepOne(listed, plan, kinds[0], oracle);
      forall e | e in w1.table && SweptBy(plan, kinds[..1], e) && x != Cancelled ensures HasACause(w, w1, e, oracle) {
        CauseStays(w, listed, w1, e, oracle);
        assert SweptKind(plan, kinds[0], e);
      }
    }
  }

  lemma SweepOne(w: World, plan: Target, kind: string, oracle: Oracle) returns (w1: World, x: Exit)
    ensures (w1, x) == DeleteListed(w, Listing(w.table, plan, kind), oracle)
    ensures w.calls <= w1.calls && x != Exception && Asked(w1.calls) == Asked(w.calls)
    ensures forall e | e in w1.table :: e in w.table
    ensures x != Cancelled ==> forall e | e in w1.table && SweptKind(plan, kind, e) :: HasACause(w, w1, e, oracle)
  {
    var keys := Listing(w.table, plan, kind);
    var r := DeleteListed(w, keys, oracle);
    w1, x := r.0, r.1;
    DeleteListedTriesAll(w, keys, oracle);
    SelectMembers(w.table, (e: Entry) => SweptKind(plan, kind, e));
    ListedKeys(w.table, Select(w.table, (e: Entry) => SweptKind(plan, kind, e)));
  }

  /** Whatever raises, the cleanup asks for every kind there is, and what it leaves of the experiment's has
      a cause of its own. */
  lemma CleanupTriesEverything(w: World, plan: Target, oracle: Oracle)
    ensures var (w1, x) := Cleaned(w, plan, oracle);
            && w.calls <= w1.calls && x != Exception
            && (x != Cancelled ==>
                  && Asked(w1.calls) == Asked(w.calls) + ["PodChaos", "NetworkChaos", "IOChaos", "StressChaos",
                       "DNSChaos", "HTTPChaos", "TimeChaos", "KernelChaos"]
                  && forall e | e in w1.table && Swept(plan, e) :: HasACause(w, w1, e, oracle))
  {
    SweepTriesAll(w, plan, KINDS, oracle);
  }

  /** The exact condition for success, and what was awaited. The injection succeeds if and only if the plan
      is admissible and every call of its script came back fine; then exactly that script was awaited. An
      inadmissible plan fails before anything is touched. Otherwise the script was followed up to the
      first call that was not fine: if that was a cancellation it is passed on at once, and if it was an
      exception every kind is swept before the failure is reported. */
  lemma ExecuteSucceedsIff(w: World, plan: Target, reg: Registry, oracle: Oracle)
    ensures var (w1, x) := Executed(w, plan, reg, oracle);
            && (x == Normal <==> Admissible(plan, reg) && AllFine(oracle, |w.calls|, Script(plan, reg)))
            && (x == Normal ==> w1.calls == w.calls + Script(plan, reg))
            && (!Admissible(plan, reg) ==> w1 == w && x == Exception)
            && (Admissible(plan, reg) <==>
                  && (forall f | f in plan.faults :: f.name in reg.catalogue && f.name in reg.kinds)
                  && (|plan.faults| > 1 ==> plan.allowMulti))
            && (Admissible(plan, reg) && x != Normal ==>
                  exists k: nat :: FailsAt(w, (w1, x), Script(plan, reg), oracle, k))
  {
    hide Script, Cleaned, FailsAt, AllFine, StopsAt, Injected;
    if Admissible(plan, reg) {
      var stopped, k := InjectionStopsAt(w, plan, reg, oracle);
      if stopped {
        FailsThere(w, plan, reg, oracle, k);
      }
    }
  }

  lemma InjectionStopsAt(w: World, plan: Target, reg: Registry, oracle: Oracle) returns (stopped: bool, k: nat)
    requires AllRenderable(plan.faults, reg)
    ensures var r := Injected(w, plan, reg, oracle);
            && stopped == (r.1 != Normal) && (stopped ==> StopsAt(w, r, Script(plan, reg), oracle, k))
            && (AllFine(oracle, |w.calls|, Script(plan, reg)) <==> !stopped)
            && (!stopped ==> r.0.calls == w.calls + Script(plan, reg))
  {
    InjectedFollows(w, plan, reg, oracle);
    hide *;
    stopped, k := FollowingStopsAt(w, Injected(w, plan, reg, oracle), Script(plan, reg), oracle);
  }

  lemma FollowingStopsAt(w: World, r: (World, Exit), script: seq<Call>, oracle: Oracle) returns (stopped: bool, k: nat)
    requires Follows(w, r, script, oracle)
    ensures stopped == (r.1 != Normal) && (stopped ==> StopsAt(w, r, script, oracle, k))
    ensures AllFine(oracle, |w.calls|, script) <==> !stopped
    ensures !stopped ==> r.0.calls == w.calls + script
  {
    stopped, k := r.1 != Normal, 0;
    if stopped {
      k :| StopsAt(w, r, script, oracle, k);
      assert oracle(script[k], |w.calls| + k) != Fine;
    }
  }

  lemma FailsThere(w: World, plan: Target, reg: Registry, oracle: Oracle, k: nat)
    requires Admissible(plan, reg) && StopsAt(w, Injected(w, plan, reg, oracle), Script(plan, reg), oracle, k)
    ensures FailsAt(w, Executed(w, plan, reg, oracle), Script(plan, reg), oracle, k)
    ensures Executed(w, plan, reg, oracle).1 != Normal
  {
    CleanupTriesEverything(Injected(w, plan, reg, oracle).0, plan, oracle);
    hide Script, Cleaned, Injected, Asked;
  }

  ghost predicate FailsAt(w: World, r: (World, Exit), script: seq<Call>, oracle: Oracle, k: nat) {
    && k < |script| && AllFine(oracle, |w.calls|, script[..k])
    && var stopped := w.calls + script[..k + 1];
       match oracle(script[k], |w.calls| + k)
       case Fine => false
       case Interrupted(_) => r.0.calls == stopped && r.1 == Cancelled
       case Fails(_) =>
         && stopped <= r.0.calls && r.1 != Normal
         && (r.1 == Exception ==>
               Asked(r.0.calls) == Asked(stopped) + ["PodChaos", "NetworkChaos", "IOChaos", "StressChaos",
                 "DNSChaos", "HTTPChaos", "TimeChaos", "KernelChaos"])
  }

  // ----- the agent ------------------------------------------------------------------------------

  class FakeClusterIO {
    var resources: Table

    constructor ()
      ensures resources == []
    {
      resources := [];
    }
  }

  class ClaudeChaosAgent {
    const cluster: FakeClusterIO
    const registry: Registry
    const oracle: Oracle
    /** What has been awaited so far. */
    var calls: seq<Call>

    constructor (cluster: FakeClusterIO, registry: Registry, oracle: Oracle)
      ensures this.cluster == cluster && this.registry == registry && this.oracle == oracle && calls == []
    {
      this.cluster, this.registry, this.oracle, this.calls := cluster, registry, oracle, [];
    }

    ghost function Now(): World
      reads this, cluster
    {
      World(cluster.resources, calls)
    }

    method Await(call: Call) returns (o: Outcome)
      modifies this`calls
      ensures o == oracle(call, old(|calls|)) && calls == old(calls) + [call]
    {
      o := oracle(call, |calls|);
      calls := calls + [call];
    }

    method ApplyEntry(e: Entry) returns (x: Exit)
      modifies this`calls, cluster
      ensures var o := oracle(Apply(e), old(|calls|)); Now() == Applied(old(Now()), e, o) && x == ExitOf(o)
    {
      var o := Await(Apply(e));
      if Landed(o) {
        cluster.resources := Put(cluster.resources, e);
      }
      x := ExitOf(o);
    }

    method DeleteKey(key: Key) returns (x: Exit)
      modifies this`calls, cluster
      ensures var o := oracle(Delete(key), old(|calls|)); Now() == Deleted(old(Now()), key, o) && x == ExitOf(o)
    {
      var o := Await(Delete(key));
      if Landed(o) {
        cluster.resources := Remove(cluster.resources, key);
      }
      x := ExitOf(o);
    }

    /** Every fault in turn, stopping at the first one that raises or is cancelled. */
    method InjectEach(plan: Target) returns (x: Exit)
      requires AllRenderable(plan.faults, registry)
      modifies this`calls, cluster
      ensures (Now(), x) == FaultTurns(old(Now()), plan.faults, plan, registry, oracle)
    {
      hide FaultTurn;
      for n := 0 to |plan.faults|
        invariant FaultTurns(old(Now()), plan.faults, plan, registry, oracle)
               == FaultTurns(Now(), plan.faults[n..], plan, registry, oracle)
      {
        assert plan.faults[n..][0] == plan.faults[n] && plan.faults[n..][1..] == plan.faults[n + 1..];
        x := InjectOne(plan.faults[n], plan);
        if x != Normal { return; }
      }
      assert plan.faults[|plan.faults|..] == [];
      x := Normal;
    }

    method InjectOne(fault: FaultSpec, plan: Target) returns (x: Exit)
      requires fault.name in registry.kinds
      modifies this`calls, cluster
      ensures (Now(), x) == FaultTurn(old(Now()), fault, plan, registry, oracle)
    {
      var body := Render(fault, plan, registry);
      x := ApplyEntry(body);
      if x != Normal { return; }
      var o := Await(Sleep(fault.durationSeconds));
      if ExitOf(o) != Normal { return ExitOf(o); }
      x := DeleteKey(body.key);
    }

    method QuietWindow(seconds: nat) returns (x: Exit)
      modifies this`calls
      ensures (Now(), x) == Pause(old(Now()), seconds, oracle)
    {
      x := Normal;
      if seconds > 0 {
        var o := Await(Sleep(seconds));
        x := ExitOf(o);
      }
    }

    method InjectFaults(plan: Target) returns (x: Exit)
      requires AllRenderable(plan.faults, registry)
      modifies this`calls, cluster
      ensures (Now(), x) == Injected(old(Now()), plan, registry, oracle)
    {
      x := QuietWindow(plan.quietPre);
      if x != Normal { return; }
      x := InjectEach(plan);
      if x != Normal { return; }
      x := QuietWindow(plan.quietPost);
    }

    method DeleteKeys(keys: seq<Key>) returns (x: Exit)
      modifies this`calls, cluster
      ensures (Now(), x) == DeleteListed(old(Now()), keys, oracle)
    {
      for i := 0 to |keys|
        invariant DeleteListed(old(Now()), keys, oracle) == DeleteListed(Now(), keys[i..], oracle)
      {
        assert keys[i..][1..] == keys[i + 1..];
        x := DeleteKey(keys[i]);
        if x == Cancelled { return; }
      }
      assert keys[|keys|..] == [];
      x := Normal;
    }

    /** Lists and deletes kind by kind; a listing that raises skips the kind. */
    method Sweep(plan: Target, kinds: seq<string>) returns (x: Exit)
      modifies this`calls, cluster
      ensures (Now(), x) == SweepKinds(old(Now()), plan, kinds, oracle)
    {
      for n := 0 to |kinds|
        invariant SweepKinds(old(Now()), plan, kinds, oracle) == SweepKinds(Now(), plan, kinds[n..], oracle)
      {
        assert kinds[n..][0] == kinds[n] && kinds[n..][1..] == kinds[n + 1..];
        var o := Await(List(kinds[n]));
        if ExitOf(o) == Cancelled { return Cancelled; }
        if ExitOf(o) == Exception { continue; }
        x := DeleteKeys(Listing(cluster.resources, plan, kinds[n]));
        if x == Cancelled { return; }
      }
      assert kinds[|kinds|..] == [];
      x := Normal;
    }

    method Cleanup(plan: Target) returns (x: Exit)
      modifies this`calls, cluster
      ensures (Now(), x) == Cleaned(old(Now()), plan, oracle)
    {
      x := Sweep(plan, KINDS);
    }

    method Execute(plan: Target) returns (x: Exit)
      modifies this`calls, cluster
      ensures (Now(), x) == Executed(old(Now()), plan, registry, oracle)
    {
      if !Admissible(plan, registry) {
        return Exception;
      }
      x := InjectFaults(plan);
      if x == Exception {
        var y := Cleanup(plan);
        if y == Cancelled {
          x := Cancelled;
        }
      }
    }
  }
}

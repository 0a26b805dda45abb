/** The bench: the attack device's four fault slots with their modular clock, the Python
    client that talks to it, and the hardware chaos agent over the simulator. */
module Hardware {
  import opened Prelude
  import opened Text

  // ----- the attack device ---------------------------------------------------------------

  const MAX_ACTIVE: nat := 4
  const MAX_TX_DBM: int := 14
  const MAX_DURATION_S: int := 600

  /** `unsigned long` on the device. */
  const WORD: nat := 0x1_0000_0000

  const KNOWN_FAULTS := {"wifi.deauth", "wifi.jam", "ble.advertising_flood", "lora.jam"}

  datatype Slot = Slot(inUse: bool, handle: string, fault: string, started: nat, duration: nat)

  datatype Reply = Accepted(handle: string, clamped: bool) | Done | Refused(error: string)

  function Handle(n: nat): string {
    "h-" + Padded(n, 5)
  }

  lemma HandleInjective(m: nat, n: nat)
    requires Handle(m) == Handle(n)
    ensures m == n
  {
    assert Handle(m)[2..] == Padded(m, 5) && Handle(n)[2..] == Padded(n, 5);
    PaddedInjective(m, n, 5);
  }

  /** The number is read back from behind its prefix, and has at least five digits. */
  lemma HandleReads(n: nat)
    ensures |Handle(n)| >= 7 && Handle(n)[..2] == "h-" && ReadDecimal(Handle(n)[2..]) == n
  {
    assert Handle(n)[2..] == Padded(n, 5);
    PaddedReadsBack(n, 5);
    PaddedIsLong(n, 5);
  }

  /** Subtraction of machine words. */
  function WordMinus(a: nat, b: nat): nat {
    (a - b) % WORD
  }

  predicate Due(s: Slot, clock: nat) {
    WordMinus(clock, s.started) >= s.duration
  }

  /** What a poll at the given clock reading leaves of the slots. */
  function Expired(slots: seq<Slot>, clock: nat): (r: seq<Slot>)
    ensures |r| == |slots|
  {
    seq(|slots|, i requires 0 <= i < |slots| =>
      if slots[i].inUse && Due(slots[i], clock) then slots[i].(inUse := false) else slots[i])
  }

  /** What stopping a handle leaves of the slots. */
  function Freed(slots: seq<Slot>, handle: string): (r: seq<Slot>)
    ensures |r| == |slots|
  {
    seq(|slots|, i requires 0 <= i < |slots| =>
      if slots[i].inUse && slots[i].handle == handle then slots[i].(inUse := false) else slots[i])
  }

  predicate IsActive(slots: seq<Slot>, handle: string) {
    exists i | 0 <= i < |slots| :: slots[i].inUse && slots[i].handle == handle
  }

  /** Active slots carry distinct handles that were all issued, and sane times. */
  ghost predicate Consistent(slots: seq<Slot>, issued: nat) {
    && |slots| == MAX_ACTIVE
    && (forall i | 0 <= i < |slots| && slots[i].inUse ::
          && slots[i].started < WORD && slots[i].duration <= 1000 * MAX_DURATION_S
          && exists n | 1 <= n <= issued :: slots[i].handle == Handle(n))
    && (forall i, j | 0 <= i < |slots| && 0 <= j < |slots| && i != j && slots[i].inUse && slots[j].inUse ::
          slots[i].handle != slots[j].handle)
  }

  // ----- the device's commands, as functions -------------------------------------------------

  datatype Device = Device(slots: seq<Slot>, issued: nat)

  datatype Command =
    | Inject(bench: bool, fault: string, durationS: int, powerDbm: int, clock: nat)
    | CleanUp(handle: string)
    | Reset
    | Poll(clock: nat)

  const FREE := Slot(false, "", "", 0, 0)
  const POWER_ON := Device([FREE, FREE, FREE, FREE], 0)

  function FreeSlot(slots: seq<Slot>): (i: nat)
    ensures i <= |slots| && (i < |slots| ==> !slots[i].inUse)
    ensures forall j | 0 <= j < i :: slots[j].inUse
  {
    if slots == [] || !slots[0].inUse then 0 else 1 + FreeSlot(slots[1..])
  }

  predicate Accepts(d: Device, c: Command) {
    c.Inject? && c.bench && 0 < c.durationS <= MAX_DURATION_S && c.fault in KNOWN_FAULTS
      && FreeSlot(d.slots) < |d.slots|
  }

  /** The entry an accepted injection makes. */
  function StartedBy(d: Device, c: Command): Option<Slot> {
    if Accepts(d, c) then Some(Slot(true, Handle(d.issued + 1), c.fault, c.clock, c.durationS * 1000)) else None
  }

  function Served(d: Device, c: Command): Device {
    match c
    case Inject(_, _, _, _, _) =>
      if Accepts(d, c) then Device(d.slots[FreeSlot(d.slots) := StartedBy(d, c).value], d.issued + 1) else d
    case CleanUp(handle) => d.(slots := Freed(d.slots, handle))
    case Reset => d.(slots := AllFree(d.slots))
    case Poll(clock) => d.(slots := Expired(d.slots, clock))
  }

  function AllFree(slots: seq<Slot>): seq<Slot> {
    seq(|slots|, i requires 0 <= i < |slots| => slots[i].(inUse := false))
  }

  /** The device after a whole session of commands and polls. */
  function After(cmds: seq<Command>): Device {
    if cmds == [] then POWER_ON else Served(After(cmds[..|cmds| - 1]), cmds[|cmds| - 1])
  }

  predicate Timed(c: Command) {
    c.Inject? ==> c.clock < WORD
  }

  lemma ServedKeepsConsistent(d: Device, c: Command)
    requires Consistent(d.slots, d.issued) && Timed(c)
    ensures var e := Served(d, c); Consistent(e.slots, e.issued)
  {
    if Accepts(d, c) {
      FreshHandle(d.slots, d.issued);
      var e := Served(d, c);
      assert e.slots[FreeSlot(d.slots)].handle == Handle(e.issued);
    }
  }

  /** In every state the device can get into, at most four faults are active, and no two of them
      share a handle. */
  lemma {:induction false} EverReachedIsConsistent(cmds: seq<Command>)
    requires forall c | c in cmds :: Timed(c)
    ensures var d := After(cmds); Consistent(d.slots, d.issued)
  {
    if cmds != [] {
      EverReachedIsConsistent(cmds[..|cmds| - 1]);
      ServedKeepsConsistent(After(cmds[..|cmds| - 1]), cmds[|cmds| - 1]);
    }
  }

  predicate Running(d: Device, s: Slot) {
    s.inUse && s in d.slots
  }

  /** Whether a command puts an end to this fault. */
  predicate Stops(c: Command, s: Slot) {
    match c
    case Inject(_, _, _, _, _) => false
    case CleanUp(handle) => handle == s.handle
    case Reset => true
    case Poll(clock) => Due(s, clock)
  }

  lemma RunningStep(d: Device, c: Command, s: Slot)
    requires Consistent(d.slots, d.issued)
    ensures Running(Served(d, c), s) <==> StartedBy(d, c) == Some(s) || (Running(d, s) && !Stops(c, s))
  {
    var e := Served(d, c);
    if Running(d, s) && !Stops(c, s) {
      var i :| 0 <= i < |d.slots| && d.slots[i] == s;
      assert e.slots[i] == s;
    }
    if StartedBy(d, c) == Some(s) {
      assert e.slots[FreeSlot(d.slots)] == s;
    }
    if Running(e, s) {
      var i :| 0 <= i < |e.slots| && e.slots[i] == s;
      assert StartedBy(d, c) == Some(s) || d.slots[i] == s;
    }
  }

  /** Command k started this fault, and no command since has stopped it. */
  predicate RunsSince(cmds: seq<Command>, s: Slot, k: nat)
    requires k < |cmds|
  {
    StartedBy(After(cmds[..k]), cmds[k]) == Some(s) && forall j | k < j < |cmds| :: !Stops(cmds[j], s)
  }

  ghost predicate StartedAndNotStopped(cmds: seq<Command>, s: Slot) {
    exists k | 0 <= k < |cmds| :: RunsSince(cmds, s, k)
  }

  lemma RunsSinceStep(cmds: seq<Command>, s: Slot, k: nat)
    requires k < |cmds| - 1
    ensures var n := |cmds| - 1; RunsSince(cmds, s, k) <==> RunsSince(cmds[..n], s, k) && !Stops(cmds[n], s)
  {
    hide After, StartedBy, Stops;
    var n := |cmds| - 1;
    var front := cmds[..n];
    assert front[..k] == cmds[..k] && front[k] == cmds[k];
    assert forall j | k < j < n :: front[j] == cmds[j];
  }

  lemma StartedStep(cmds: seq<Command>, s: Slot)
    requires cmds != []
    ensures var n := |cmds| - 1;
            StartedAndNotStopped(cmds, s) <==>
              || StartedBy(After(cmds[..n]), cmds[n]) == Some(s)
              || (StartedAndNotStopped(cmds[..n], s) && !Stops(cmds[n], s))
  {
    hide After, StartedBy, Stops;
    var n := |cmds| - 1;
    assert RunsSince(cmds, s, n) <==> StartedBy(After(cmds[..n]), cmds[n]) == Some(s);
    hide RunsSince;
    if k :| 0 <= k < n && RunsSince(cmds, s, k) {
      RunsSinceStep(cmds, s, k);
    }
    if k :| 0 <= k < n && RunsSince(cmds[..n], s, k) {
      RunsSinceStep(cmds, s, k);
    }
  }

  /** The books balance over any session: the faults that run are exactly those that an accepted
      injection started and that no later cleanup, reset or due poll has stopped. */
  lemma {:induction false} RunningIffAccounted(cmds: seq<Command>, s: Slot)
    requires forall c | c in cmds :: Timed(c)
    ensures Running(After(cmds), s) <==> StartedAndNotStopped(cmds, s)
  {
    if cmds != [] {
      hide Served, StartedBy, Stops, StartedAndNotStopped, Running, Consistent;
      var front := cmds[..|cmds| - 1];
      RunningIffAccounted(front, s);
      EverReachedIsConsistent(front);
      RunningStep(After(front), cmds[|cmds| - 1], s);
      StartedStep(cmds, s);
    }
  }

  class AttackDevice {
    const slots: array<Slot>
    var nextHandle: nat

    ghost function Now(): Device
      reads this, slots
    {
      Device(slots[..], nextHandle)
    }

    ghost predicate Valid()
      reads this, slots
    {
      slots.Length == MAX_ACTIVE && Consistent(slots[..], nextHandle)
    }

    constructor ()
      ensures Valid() && fresh(slots) && Now() == POWER_ON
      ensures forall i | 0 <= i < slots.Length :: !slots[i].inUse
    {
      slots := new Slot[MAX_ACTIVE](_ => FREE);
      nextHandle := 0;
    }

    method FirstFree() returns (i: nat)
      requires slots.Length == MAX_ACTIVE
      ensures i == FreeSlot(slots[..])
    {
      i := 0;
      while i < MAX_ACTIVE
        invariant i <= MAX_ACTIVE && forall j | 0 <= j < i :: slots[j].inUse
      {
        if !slots[i].inUse { return; }
        i := i + 1;
      }
    }

    method HandleInject(bench: bool, fault: string, durationS: int, powerDbm: int, clock: nat) returns (reply: Reply)
      requires Valid() && clock < WORD
      modifies this`nextHandle, slots
      ensures Valid()
      ensures reply.Accepted? <==>
        && bench && 0 < durationS <= 600 && fault in {"wifi.deauth", "wifi.jam", "ble.advertising_flood", "lora.jam"}
        && exists i | 0 <= i < 4 :: !old(slots[i].inUse)
      ensures !reply.Accepted? ==> reply == Refused(
        if !bench then "production-mode: chaos commands disabled"
        else if durationS <= 0 || durationS > 600 then "duration_seconds must be 1..600"
        else if forall i | 0 <= i < 4 :: old(slots[i].inUse) then "max active faults reached"
        else "unknown fault")
      ensures reply.Accepted? ==>
        && nextHandle == old(nextHandle) + 1
        && reply.handle == Handle(nextHandle) && !IsActive(old(slots[..]), reply.handle)
        && reply.clamped == (powerDbm > 14)
        && exists i | 0 <= i < MAX_ACTIVE ::
             && !old(slots[i].inUse) && (forall j | 0 <= j < i :: old(slots[j].inUse))
             && slots[..] == old(slots[..])[i := Slot(true, reply.handle, fault, clock, durationS * 1000)]
      ensures !reply.Accepted? ==> nextHandle == old(nextHandle) && slots[..] == old(slots[..])
      ensures Now() == Served(old(Now()), Inject(bench, fault, durationS, powerDbm, clock))
    {
      if !bench {
        return Refused("production-mode: chaos commands disabled");
      }
      if durationS <= 0 || durationS > MAX_DURATION_S {
        return Refused("duration_seconds must be 1..600");
      }
      var slot := FirstFree();
      if slot == MAX_ACTIVE {
        return Refused("max active faults reached");
      }
      var clamped := powerDbm > MAX_TX_DBM;
      if fault !in KNOWN_FAULTS {
        return Refused("unknown fault");
      }
      nextHandle := nextHandle + 1;
      FreshHandle(slots[..], nextHandle - 1);
      slots[slot] := Slot(true, Handle(nextHandle), fault, clock, durationS * 1000);
      assert slots[..] == old(slots[..])[slot := slots[slot]];
      reply := Accepted(Handle(nextHandle), clamped);
    }

    method HandleCleanup(handle: string) returns (reply: Reply)
      requires Valid()
      modifies slots
      ensures Valid() && slots[..] == Freed(old(slots[..]), handle) && Now() == Served(old(Now()), CleanUp(handle))
      ensures reply == if IsActive(old(slots[..]), handle) then Done else Refused("handle already gone")
    {
      var i := 0;
      while i < MAX_ACTIVE
        invariant 0 <= i <= MAX_ACTIVE && slots[..] == old(slots[..])
        invariant forall j | 0 <= j < i :: !(slots[j].inUse && slots[j].handle == handle)
      {
        if slots[i].inUse && slots[i].handle == handle {
          slots[i] := slots[i].(inUse := false);
          assert old(slots[..])[i].inUse && old(slots[..])[i].handle == handle;
          assert slots[..] == Freed(old(slots[..]), handle);
          return Done;
        }
        i := i + 1;
      }
      assert slots[..] == Freed(old(slots[..]), handle);
      reply := Refused("handle already gone");
    }

    method HandleReset()
      requires Valid()
      modifies slots
      ensures Valid() && (forall i | 0 <= i < slots.Length :: slots[i] == old(slots[i]).(inUse := false))
      ensures Now() == Served(old(Now()), Reset)
    {
      var i := 0;
      while i < MAX_ACTIVE
        invariant 0 <= i <= MAX_ACTIVE
        invariant forall j | 0 <= j < MAX_ACTIVE :: slots[j] == if j < i then old(slots[j]).(inUse := false)
            else old(slots[j])
      {
        slots[i] := slots[i].(inUse := false);
        i := i + 1;
      }
      assert slots[..] == AllFree(old(slots[..]));
    }

    method PollExpirations(clock: nat)
      requires Valid() && clock < WORD
      modifies slots
      ensures Valid() && slots[..] == Expired(old(slots[..]), clock) && Now() == Served(old(Now()), Poll(clock))
    {
      var i := 0;
      while i < MAX_ACTIVE
        invariant 0 <= i <= MAX_ACTIVE
        invariant forall j | 0 <= j < MAX_ACTIVE :: slots[j] == if j < i then Expired(old(slots[..]), clock)[j]
            else old(slots[j])
      {
        if slots[i].inUse {
          if WordMinus(clock, slots[i].started) >= slots[i].duration {
            slots[i] := slots[i].(inUse := false);
          }
        }
        i := i + 1;
      }
      assert slots[..] == Expired(old(slots[..]), clock);
    }
  }

  lemma FreshHandle(slots: seq<Slot>, issued: nat)
    requires Consistent(slots, issued)
    ensures !IsActive(slots, Handle(issued + 1))
  {
    forall i | 0 <= i < |slots| && slots[i].inUse ensures slots[i].handle != Handle(issued + 1) {
      var n :| 1 <= n <= issued && slots[i].handle == Handle(n);
      if slots[i].handle == Handle(issued + 1) {
        HandleInjective(n, issued + 1);
      }
    }
  }

  /** At most one slot is freed: the one that was issued the handle. */
  lemma FreedFreesOne(slots: seq<Slot>, issued: nat, handle: string, i: nat)
    requires Consistent(slots, issued) && i < |slots| && slots[i].inUse && slots[i].handle == handle
    ensures Freed(slots, handle) == slots[i := slots[i].(inUse := false)]
    ensures !IsActive(Freed(slots, handle), handle)
  {
  }

  /** The device clock is the time since power-on modulo 2^32. A poll at time `now` stops a fault
      started at `start` exactly when the elapsed time, again modulo 2^32, has reached its
      duration. */
  lemma PollDecidesModuloWrap(s: Slot, start: nat, now: nat)
    requires start <= now && s.started == start % WORD
    ensures Due(s, now % WORD) <==> (now - start) % WORD >= s.duration
  {
    ModMinus(now, start);
  }

  lemma ModMinus(a: nat, b: nat)
    ensures (a % WORD - b % WORD) % WORD == (a - b) % WORD
  {
    var q, r := a / WORD, b / WORD;
    assert a - b == (a % WORD - b % WORD) + WORD * (q - r);
    ModPlusMultiple(a % WORD - b % WORD, q - r);
  }

  lemma ModPlusMultiple(x: int, k: int)
    ensures (x + WORD * k) % WORD == x % WORD
  {
  }

  /** Polled within one clock period of its start, a fault is stopped exactly when its time is
      up, however the clock wrapped in between. */
  lemma PollIsExactWithinOnePeriod(s: Slot, start: nat, now: nat)
    requires start <= now < start + WORD && s.started == start % WORD
    ensures Due(s, now % WORD) <==> now - start >= s.duration
  {
    PollDecidesModuloWrap(s, start, now);
  }

  /** A poll that comes a whole period late can miss an elapsed fault. */
  lemma PollAWholePeriodLateMisses(s: Slot, start: nat)
    requires s.started == start % WORD && s.duration > 0
    ensures !Due(s, (start + WORD) % WORD)
  {
    PollDecidesModuloWrap(s, start, start + WORD);
  }

  /** The exact condition: at a given moment every permitted fault is judged by its true elapsed time if
      and only if less than a clock period has gone by since the start, or the remainder of the time is
      past the longest duration. */
  lemma PollIsExactIff(start: nat, now: nat)
    requires start <= now
    ensures (forall s: Slot | s.started == start % WORD && 0 < s.duration <= 1000 * MAX_DURATION_S ::
              Due(s, now % WORD) <==> now - start >= s.duration) <==>
       now - start < 4294967296 || (now - start) % 4294967296 >= 600000
  {
    assert WORD == 4294967296;
    forall s: Slot | s.started == start % WORD ensures Due(s, now % WORD) <==> (now - start) % WORD >= s.duration {
      PollDecidesModuloWrap(s, start, now);
    }
    var longest := Slot(true, "", "", start % WORD, 1000 * MAX_DURATION_S);
    assert longest.started == start % WORD;
    if now - start < WORD {
      assert (now - start) % WORD == now - start;
    }
  }

  // ----- the Python client ----------------------------------------------------------------

  /** `HilHardwareIO.cleanup`: a refusal that mentions "already" counts as success. */
  method HilCleanup(device: AttackDevice, handle: string) returns (raised: bool)
    requires device.Valid()
    modifies device.slots
    ensures device.Valid() && !raised
    ensures device.slots[..] == Freed(old(device.slots[..]), handle)
  {
    var reply := device.HandleCleanup(handle);
    if reply.Refused? {
      AlreadyGoneSaysAlready();
      raised := !Contains(Lower(reply.error), "already");
    } else {
      raised := false;
    }
  }

  lemma AlreadyGoneSaysAlready()
    ensures Contains(Lower("handle already gone"), "already")
  {
    assert "handle already gone" == "handle " + "already" + " gone";
    LowerFixed("handle already gone");
    OccursInside("handle ", "already", " gone");
  }

  /** Cleaning up twice is cleaning up once. */
  lemma FreedIdempotent(slots: seq<Slot>, handle: string)
    ensures Freed(Freed(slots, handle), handle) == Freed(slots, handle)
  {
  }

  // ----- the simulator and the agent that drives it ------------------------------------------

  function SimHandle(n: nat): string {
    "sim-inject-" + Padded(n, 4)
  }

  lemma SimHandleInjective(m: nat, n: nat)
    requires SimHandle(m) == SimHandle(n)
    ensures m == n
  {
    assert SimHandle(m)[11..] == Padded(m, 4) && SimHandle(n)[11..] == Padded(n, 4);
    PaddedInjective(m, n, 4);
  }

  lemma SimHandleReads(n: nat)
    ensures |SimHandle(n)| >= 15 && SimHandle(n)[..11] == "sim-inject-" && ReadDecimal(SimHandle(n)[11..]) == n
  {
    assert SimHandle(n)[11..] == Padded(n, 4);
    PaddedReadsBack(n, 4);
    PaddedIsLong(n, 4);
  }

  /** When calls on the bench raise; `n` counts the calls of one kind. A renderer that raises is an
      injection that raises before it has done anything. */
  datatype Weather = Weather(sleepRaises: nat -> bool, injectRaises: nat -> bool, cleanupRaises: nat -> bool)

  /** None of the next calls of one kind raises. */
  ghost predicate Quiet(raises: nat -> bool, from: nat, count: nat) {
    forall n: nat | from < n <= from + count :: !raises(n)
  }

  ghost predicate CleanupSucceeds(w: Weather) {
    forall n: nat :: !w.cleanupRaises(n)
  }

  class SimulatedHardwareIO {
    const weather: Weather
    var active: map<string, string>
    var nextHandle: nat
    var injects: nat
    var cleanups: nat

    ghost predicate Valid()
      reads this
    {
      forall h | h in active :: exists n | 1 <= n <= nextHandle :: h == SimHandle(n)
    }

    constructor (weather: Weather)
      ensures Valid() && active == map[] && nextHandle == 0 && this.weather == weather
      ensures injects == cleanups == 0
    {
      this.weather := weather;
      active, nextHandle, injects, cleanups := map[], 0, 0, 0;
    }

    method InjectFault(fault: string) returns (handle: Answer<string>)
      requires Valid()
      modifies this
      ensures Valid()
      ensures handle.Raised? <==> weather.injectRaises(injects)
      ensures handle.Raised? ==> active == old(active) && nextHandle == old(nextHandle)
      ensures handle.Answered? ==>
        && nextHandle == old(nextHandle) + 1
        && handle.value == SimHandle(nextHandle) && handle.value !in old(active)
        && active == old(active)[handle.value := fault]
      ensures cleanups == old(cleanups) && injects == old(injects) + 1
    {
      injects := injects + 1;
      if weather.injectRaises(injects) {
        return Raised;
      }
      nextHandle := nextHandle + 1;
      forall h | h in active ensures h != SimHandle(nextHandle) {
        var n :| 1 <= n <= nextHandle - 1 && h == SimHandle(n);
        if h == SimHandle(nextHandle) {
          SimHandleInjective(n, nextHandle);
        }
      }
      active := active[SimHandle(nextHandle) := fault];
      handle := Answered(SimHandle(nextHandle));
    }

    /** Idempotent: a handle that is gone stays gone. */
    method Cleanup(handle: string) returns (raised: bool)
      requires Valid()
      modifies this
      ensures Valid() && nextHandle == old(nextHandle)
      ensures active == if raised then old(active) else old(active) - {handle}
      ensures raised <==> weather.cleanupRaises(cleanups)
      ensures injects == old(injects) && cleanups == old(cleanups) + 1
    {
      cleanups := cleanups + 1;
      raised := weather.cleanupRaises(cleanups);
      if !raised {
        active := active - {handle};
      }
    }
  }

  datatype Fault = Fault(name: string, durationS: nat)

  datatype BenchPlan = BenchPlan(faults: seq<Fault>, allowMulti: bool, quietPre: nat, quietPost: nat)

  datatype BenchEvent =
    | Scheduled(fault: string)
    | Started(fault: string, handle: string)
    | CleanedUp(fault: string)
    | ForcedCleanup(handle: string)

  datatype Timeline = Timeline(events: seq<BenchEvent>, success: bool)

  /** What the audit trail of an undisturbed run reads. */
  function PlainEvents(faults: seq<Fault>, issued: nat): seq<BenchEvent> {
    if faults == [] then []
    else
      var last := faults[|faults| - 1].name;
      PlainEvents(faults[..|faults| - 1], issued)
        + [Scheduled(last), Started(last, SimHandle(issued + |faults|)), CleanedUp(last)]
  }

  /** What the trail of an injection that broke off adds, and the handle it leaves open: nothing while it
      waited in a quiet window, an announcement if the bench did not take the fault on, and otherwise
      the fault that was started last. */
  predicate BrokeOff(faults: seq<Fault>, k: nat, issued: nat, tail: seq<BenchEvent>, handles: seq<string>)
    requires k <= |faults|
  {
    || (tail == [] && handles == [])
    || (k < |faults| && tail == [Scheduled(faults[k].name)] && handles == [])
    || (k < |faults| && handles == [SimHandle(issued + k + 1)]
       && tail == [Scheduled(faults[k].name), Started(faults[k].name, handles[0])])
  }

  /** What an undisturbed injection sleeps for. */
  function Sleeps(plan: BenchPlan): seq<nat> {
    (if plan.quietPre > 0 then [plan.quietPre] else []) + Durations(plan.faults)
    + (if plan.quietPost > 0 then [plan.quietPost] else [])
  }

  function Durations(faults: seq<Fault>): (r: seq<nat>)
    ensures |r| == |faults|
    ensures forall i | 0 <= i < |faults| :: r[i] == faults[i].durationS
  {
    seq(|faults|, i requires 0 <= i < |faults| => faults[i].durationS)
  }

  /** The trail of the cleanup that follows. */
  function Forced(handles: seq<string>, closed: bool): seq<BenchEvent> {
    if closed && handles != [] then [ForcedCleanup(handles[0])] else []
  }

  lemma BreaksOffHere(fault: Fault, issued: nat)
    ensures BrokeOff([fault], 0, issued, [Scheduled(fault.name)], [])
    ensures var h := SimHandle(issued + 1);
            BrokeOff([fault], 0, issued, [Scheduled(fault.name), Started(fault.name, h)], [h])
  {
  }

  lemma BreaksOffThere(faults: seq<Fault>, k: nat, issued: nat, tail: seq<BenchEvent>, handles: seq<string>)
    requires k < |faults| && BrokeOff([faults[k]], 0, issued + k, tail, handles)
    ensures BrokeOff(faults, k, issued, tail, handles)
  {
  }

  lemma SleepsAre(before: seq<nat>, plan: BenchPlan)
    ensures ((before + (if plan.quietPre > 0 then [plan.quietPre] else [])) + Durations(plan.faults))
        + (if plan.quietPost > 0 then [plan.quietPost] else []) == before + Sleeps(plan)
  {
  }

  lemma SleepsMore(before: seq<nat>, faults: seq<Fault>, n: nat)
    requires n < |faults|
    ensures (before + Durations(faults[..n])) + [faults[n].durationS] == before + Durations(faults[..n + 1])
  {
  }

  lemma QuietOn(raises: nat -> bool, from: nat, a: nat, b: nat)
    ensures Quiet(raises, from, a + b) <==> Quiet(raises, from, a) && Quiet(raises, from + a, b)
  {
  }

  /** None of the calls of the next n turns raises. */
  ghost predicate Unraised(w: Weather, injects: nat, cleanups: nat, sleeps: nat, n: nat) {
    Quiet(w.injectRaises, injects, n) && Quiet(w.cleanupRaises, cleanups, n) && Quiet(w.sleepRaises, sleeps, n)
  }

  lemma NothingRaisedYet(w: Weather, injects: nat, cleanups: nat, sleeps: nat)
    ensures Unraised(w, injects, cleanups, sleeps, 0)
  {
  }

  lemma UnraisedOn(w: Weather, injects: nat, cleanups: nat, sleeps: nat, n: nat, m: nat)
    requires n < m
    ensures Unraised(w, injects, cleanups, sleeps, n + 1) <==>
      && Unraised(w, injects, cleanups, sleeps, n)
      && !w.injectRaises(injects + n + 1) && !w.cleanupRaises(cleanups + n + 1) && !w.sleepRaises(sleeps + n + 1)
    ensures Unraised(w, injects, cleanups, sleeps, m) ==> Unraised(w, injects, cleanups, sleeps, n + 1)
  {
  }

  lemma PutThenRemove(m: map<string, string>, k: string, v: string)
    requires k !in m
    ensures m[k := v] - {k} == m
  {
  }

  class HardwareChaosAgent {
    const hardware: SimulatedHardwareIO
    const catalogue: set<string>
    const renderable: set<string>
    /** How long each sleep so far was to be. */
    var slept: seq<nat>

    constructor (hardware: SimulatedHardwareIO, catalogue: set<string>, renderable: set<string>)
      ensures this.hardware == hardware && this.catalogue == catalogue && this.renderable == renderable && slept == []
    {
      this.hardware, this.catalogue, this.renderable, this.slept := hardware, catalogue, renderable, [];
    }

    predicate Admissible(plan: BenchPlan) {
      && (forall i | 0 <= i < |plan.faults| :: plan.faults[i].name in catalogue && plan.faults[i].name in renderable)
      && (|plan.faults| <= 1 || plan.allowMulti)
    }

    /** None of the calls that an undisturbed injection makes on the bench would raise. */
    ghost predicate Undisturbed(plan: BenchPlan)
      reads this, hardware
    {
      && Quiet(hardware.weather.injectRaises, hardware.injects, |plan.faults|)
      && Quiet(hardware.weather.cleanupRaises, hardware.cleanups, |plan.faults|)
      && Quiet(hardware.weather.sleepRaises, |slept|, |Sleeps(plan)|)
    }

    method Sleep(seconds: nat) returns (raised: bool)
      modifies this
      ensures slept == old(slept) + [seconds] && (raised <==> hardware.weather.sleepRaises(|slept|))
    {
      slept := slept + [seconds];
      raised := hardware.weather.sleepRaises(|slept|);
    }

    /** Inject, wait, clean up: one turn of the loop, with the handle it leaves open when a call
        raises in between. */
    method RunFault(fault: Fault) returns (raised: bool, events: seq<BenchEvent>, handles: seq<string>)
      requires hardware.Valid()
      modifies this, hardware
      ensures hardware.Valid()
      ensures handles == [] ==> hardware.active == old(hardware.active)
      ensures handles != [] ==>
        && raised && handles[0] !in old(hardware.active)
        && hardware.active == old(hardware.active)[handles[0] := fault.name]
      ensures var w := hardware.weather;
              raised <==> w.injectRaises(old(hardware.injects) + 1) || w.sleepRaises(old(|slept|) + 1)
                            || w.cleanupRaises(old(hardware.cleanups) + 1)
      ensures raised ==> BrokeOff([fault], 0, old(hardware.nextHandle), events, handles) && events != []
      ensures !raised ==>
        && handles == [] && hardware.nextHandle == old(hardware.nextHandle) + 1
        && slept == old(slept) + [fault.durationS]
        && hardware.injects == old(hardware.injects) + 1 && hardware.cleanups == old(hardware.cleanups) + 1
        && events == [Scheduled(fault.name), Started(fault.name, SimHandle(hardware.nextHandle)), CleanedUp(fault.name)]
    {
      hide SimHandle, SimulatedHardwareIO.Valid, BrokeOff;
      BreaksOffHere(fault, hardware.nextHandle);
      events, handles := [Scheduled(fault.name)], [];
      var handle := hardware.InjectFault(fault.name);
      if handle.Raised? {
        return true, events, handles;
      }
      PutThenRemove(old(hardware.active), handle.value, fault.name);
      handles := handles + [handle.value];
      events := events + [Started(fault.name, handle.value)];
      assert events == [Scheduled(fault.name), Started(fault.name, handle.value)] && handles == [handle.value];
      raised := Sleep(fault.durationS);
      if raised { return; }
      raised := hardware.Cleanup(handle.value);
      if raised { return; }
      handles := handles[..|handles| - 1];
      events := events + [CleanedUp(fault.name)];
    }

    method QuietWindow(seconds: nat) returns (raised: bool)
      modifies this
      ensures slept == old(slept) + (if seconds > 0 then [seconds] else [])
      ensures raised <==> seconds > 0 && hardware.weather.sleepRaises(|slept|)
    {
      raised := false;
      if seconds > 0 {
        raised := Sleep(seconds);
      }
    }

    /** The guarded part: stops at the first call that raises and reports the handles that were
        opened and not yet closed. */
    method RunFaults(plan: BenchPlan) returns (raised: bool, events: seq<BenchEvent>, handles: seq<string>)
      requires hardware.Valid()
      modifies this, hardware
      ensures hardware.Valid()
      ensures handles == [] ==> hardware.active == old(hardware.active)
      ensures handles != [] ==>
        && |handles| == 1 && handles[0] in hardware.active && handles[0] !in old(hardware.active)
        && hardware.active - {handles[0]} == old(hardware.active)
      ensures raised <==> !old(Undisturbed(plan))
      ensures !raised ==>
        && handles == [] && events == PlainEvents(plan.faults, old(hardware.nextHandle))
        && slept == old(slept) + Sleeps(plan)
      ensures raised ==> exists k, tail | 0 <= k <= |plan.faults| ::
        && events == PlainEvents(plan.faults[..k], old(hardware.nextHandle)) + tail
        && BrokeOff(plan.faults, k, old(hardware.nextHandle), tail, handles)
    {
      ghost var w, quiet := hardware.weather, |slept|;
      ghost var pre, post := if plan.quietPre > 0 then 1 else 0, if plan.quietPost > 0 then 1 else 0;
      QuietOn(w.sleepRaises, quiet, pre, |plan.faults|);
      QuietOn(w.sleepRaises, quiet, pre + |plan.faults|, post);
      SleepsAre(slept, plan);
      hide Quiet, SimHandle, SimulatedHardwareIO.Valid, Durations;
      events, handles := [], [];
      raised := QuietWindow(plan.quietPre);
      if raised {
        assert PlainEvents(plan.faults[..0], old(hardware.nextHandle)) + [] == events;
        assert BrokeOff(plan.faults, 0, old(hardware.nextHandle), [], handles);
        return;
      }
      raised, events, handles := RunEach(plan.faults);
      if raised { return; }
      raised := QuietWindow(plan.quietPost);
      assert plan.faults[..|plan.faults|] == plan.faults;
      assert PlainEvents(plan.faults[..|plan.faults|], old(hardware.nextHandle)) + [] == events;
      assert BrokeOff(plan.faults, |plan.faults|, old(hardware.nextHandle), [], handles);
    }

    method RunEach(faults: seq<Fault>) returns (raised: bool, events: seq<BenchEvent>, handles: seq<string>)
      requires hardware.Valid()
      modifies this, hardware
      ensures hardware.Valid()
      ensures handles == [] ==> hardware.active == old(hardware.active)
      ensures handles != [] ==>
        && |handles| == 1 && handles[0] in hardware.active && handles[0] !in old(hardware.active)
        && hardware.active - {handles[0]} == old(hardware.active)
      ensures raised <==>
        !Unraised(hardware.weather, old(hardware.injects), old(hardware.cleanups), old(|slept|), |faults|)
      ensures !raised ==>
        handles == [] && events == PlainEvents(faults, old(hardware.nextHandle))
          && slept == old(slept) + Durations(faults)
      ensures raised ==> exists k, tail | 0 <= k <= |faults| ::
        && events == PlainEvents(faults[..k], old(hardware.nextHandle)) + tail
        && BrokeOff(faults, k, old(hardware.nextHandle), tail, handles)
    {
      hide SimHandle, SimulatedHardwareIO.Valid, BrokeOff, Durations, Unraised;
      NothingRaisedYet(hardware.weather, hardware.injects, hardware.cleanups, |slept|);
      raised, events, handles := false, [], [];
      for n := 0 to |faults|
        invariant hardware.Valid() && hardware.active == old(hardware.active) && handles == [] && !raised
        invariant hardware.nextHandle == old(hardware.nextHandle) + n && hardware.injects == old(hardware.injects) + n
        invariant hardware.cleanups == old(hardware.cleanups) + n && slept == old(slept) + Durations(faults[..n])
        invariant events == PlainEvents(faults[..n], old(hardware.nextHandle))
        invariant Unraised(hardware.weather, old(hardware.injects), old(hardware.cleanups), old(|slept|), n)
      {
        UnraisedOn(hardware.weather, old(hardware.injects), old(hardware.cleanups), old(|slept|), n, |faults|);
        SleepsMore(old(slept), faults, n);
        var turn: seq<BenchEvent>;
        raised, turn, handles := RunFault(faults[n]);
        events := events + turn;
        if raised {
          BreaksOffThere(faults, n, old(hardware.nextHandle), turn, handles);
          return;
        }
        assert faults[..n + 1][..n] == faults[..n];
      }
      assert faults[..|faults|] == faults;
    }

    /** Every handle this call opens is closed again on every exit, as long as closing works; and
        whatever happens, no fault that was active before is touched. The injection succeeds if and only if
        the plan is admissible, the gates pass and none of the calls it takes raises. One that does not
        leaves the trail of what it got done, and of the handle it closed afterwards. */
    method Execute(plan: BenchPlan, gatesPass: bool) returns (timeline: Timeline)
      requires hardware.Valid()
      modifies this, hardware
      ensures hardware.Valid()
      ensures CleanupSucceeds(hardware.weather) ==> hardware.active == old(hardware.active)
      ensures forall h | h in old(hardware.active) ::
          h in hardware.active && hardware.active[h] == old(hardware.active)[h]
      ensures timeline.success <==>
        && (forall f | f in plan.faults :: f.name in catalogue && f.name in renderable)
        && (|plan.faults| > 1 ==> plan.allowMulti) && gatesPass && old(Undisturbed(plan))
      ensures timeline.success ==>
        timeline.events == PlainEvents(plan.faults, old(hardware.nextHandle)) && slept == old(slept) + Sleeps(plan)
      ensures !Admissible(plan) || !gatesPass ==>
        && timeline == Timeline([], false) && slept == old(slept)
        && hardware.nextHandle == old(hardware.nextHandle) && hardware.active == old(hardware.active)
      ensures Admissible(plan) && gatesPass && !timeline.success ==>
        exists k, tail, handles, closed | 0 <= k <= |plan.faults| ::
          && BrokeOff(plan.faults, k, old(hardware.nextHandle), tail, handles)
          && timeline.events == PlainEvents(plan.faults[..k], old(hardware.nextHandle)) + tail + Forced(handles, closed)
          && hardware.active.Keys == old(hardware.active.Keys) + (if closed then {} else set h | h in handles)
    {
      if !Admissible(plan) || !gatesPass {
        return Timeline([], false);
      }
      var raised, events, handles := RunFaults(plan);
      if !raised {
        return Timeline(events, true);
      }
      ghost var k, tail :| 0 <= k <= |plan.faults|
        && events == PlainEvents(plan.faults[..k], old(hardware.nextHandle)) + tail
        && BrokeOff(plan.faults, k, old(hardware.nextHandle), tail, handles);
      ghost var closed;
      events, closed := CloseAll(events, handles);
      timeline := Timeline(events, false);
    }

    /** Best-effort cleanup of what was left open. */
    method CloseAll(trail: seq<BenchEvent>, handles: seq<string>) returns (events: seq<BenchEvent>, ghost closed: bool)
      requires hardware.Valid() && |handles| <= 1
      modifies hardware
      ensures hardware.Valid() && hardware.nextHandle == old(hardware.nextHandle)
      ensures events == trail + Forced(handles, closed) && (CleanupSucceeds(hardware.weather) ==> closed)
      ensures hardware.active == if closed && handles != [] then old(hardware.active) - {handles[0]}
                                 else old(hardware.active)
      ensures closed <==> handles == [] || !hardware.weather.cleanupRaises(hardware.cleanups)
    {
      events, closed := trail, handles == [];
      for n := 0 to |handles|
        invariant hardware.Valid() && hardware.nextHandle == old(hardware.nextHandle)
        invariant n > 0 ==> (closed <==> !hardware.weather.cleanupRaises(hardware.cleanups))
        invariant n == 0 ==> hardware.active == old(hardware.active) && closed == (handles == [])
        invariant n > 0 ==>
          hardware.active == if closed then old(hardware.active) - {handles[0]} else old(hardware.active)
        invariant events == trail + (if n == 0 then [] else Forced(handles, closed))
      {
        var failed := hardware.Cleanup(handles[n]);
        closed := !failed;
        if !failed {
          events := events + [ForcedCleanup(handles[n])];
        }
      }
    }
  }
}

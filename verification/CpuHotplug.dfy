/** SetCPUs of driver/driver.go. A hotpluggable slot is one virtual CPU. */
module CpuHotplug {
  import opened Sorting
  import opened Text

  datatype Slot = Slot(socket: int, core: int, thread: int)

  /** An entry of query-hotpluggable-cpus; the QOM path is empty for a free slot. */
  datatype Cpu = Cpu(slot: Slot, plugged: bool)

  // ---------- the order of SortFunc ----------

  /** The sign of the comparison function. */
  predicate Less(a: Slot, b: Slot) {
    a.socket < b.socket
    || (a.socket == b.socket && (a.core < b.core || (a.core == b.core && a.thread < b.thread)))
  }

  lemma LessIsTotal()
    ensures TotalOrder(Less)
  {
  }

  /** The slots of `s` in (socket, core, thread) order. */
  ghost function InOrder(s: set<Slot>): seq<Slot> {
    LessIsTotal();
    Order(s, Less)
  }

  // ---------- SetCPUs ----------

  datatype Result = Ok | NotSupported | NotEnoughSlots | QueryFailed | Incomplete

  /** The slots QEMU has, and which of them are plugged. */
  class Qemu {
    const slots: set<Slot>
    var plugged: set<Slot>
    var log: seq<Slot>      // device_add calls, in order

    constructor (slots: set<Slot>, plugged: set<Slot>)
      ensures this.slots == slots && this.plugged == plugged && log == []
    {
      this.slots, this.plugged, log := slots, plugged, [];
    }

    /** device_add for a CPU; refused by QEMU when the slot is taken. */
    method AddCpu(slot: Slot, fails: bool) returns (ok: bool)
      requires slot in slots
      modifies this
      ensures ok == (!fails && slot !in old(plugged))
      ensures plugged == if ok then old(plugged) + {slot} else old(plugged)
      ensures log == old(log) + [slot]
    {
      log := log + [slot];
      ok := !fails && slot !in plugged;
      if ok {
        plugged := plugged + {slot};
      }
    }

    /** `failAt` is the number of device_add calls that succeed before one fails, if one does. */
    method SetCPUs(count: nat, cpus: seq<Cpu>, queryOk: bool, failAt: Option<nat>) returns (r: Result)
      requires Lists(cpus, slots, plugged)
      modifies this
      ensures plugged == Outcome(MachineOf(slots, old(plugged)), count, queryOk, failAt).0.plugged
      ensures r == Outcome(MachineOf(slots, old(plugged)), count, queryOk, failAt).1
      ensures log == old(log) + Asked(MachineOf(slots, old(plugged)), count, queryOk, failAt)
    {
      ghost var m := MachineOf(slots, plugged);
      PlugNothing(m);
      if !queryOk {
        return QueryFailed;
      }
      r := SetFromList(m, count, cpus, failAt);
    }

    /** What follows the query. */
    method SetFromList(ghost m: Machine, count: nat, cpus: seq<Cpu>, failAt: Option<nat>) returns (r: Result)
      requires Lists(cpus, slots, plugged) && m == MachineOf(slots, plugged)
      modifies this
      ensures plugged == Outcome(m, count, true, failAt).0.plugged && r == Outcome(m, count, true, failAt).1
      ensures log == old(log) + Asked(m, count, true, failAt)
    {
      var availableCPUs, needed := Missing(m, cpus, count);
      r := PlugMissing(m, cpus, count, availableCPUs, needed, failAt);
    }

    /** The free slots, and how many CPUs are missing. */
    method Missing(ghost m: Machine, cpus: seq<Cpu>, count: nat) returns (availableCPUs: seq<Slot>, needed: int)
      requires Lists(cpus, slots, plugged) && m == MachineOf(slots, plugged)
      ensures availableCPUs == Select(cpus, false) && |availableCPUs| == |m.free| && needed == count - m.count
    {
      var pluggedCPUs;
      availableCPUs, pluggedCPUs := Separate(cpus);
      Counts(cpus, m, slots, plugged);
      needed := count - |pluggedCPUs|;
    }

    /** The comparisons with the number of CPUs still needed. */
    method PlugMissing(ghost m: Machine, ghost cpus: seq<Cpu>, ghost count: nat,
                       available: seq<Slot>, needed: int, failAt: Option<nat>)
      returns (r: Result)
      requires Lists(cpus, slots, plugged) && available == Select(cpus, false)
      requires m == MachineOf(slots, plugged) && |available| == |m.free| && needed == count - m.count
      modifies this
      ensures plugged == Outcome(m, count, true, failAt).0.plugged && r == Outcome(m, count, true, failAt).1
      ensures log == old(log) + Asked(m, count, true, failAt)
    {
      PlugNothing(m);
      if needed == 0 {
        return Ok;
      }
      if needed < 0 {
        return NotSupported;
      }
      if needed > |available| {
        return NotEnoughSlots;
      }
      r := SortAndPlug(m, cpus, available, needed, failAt);
    }

    method SortAndPlug(ghost m: Machine, ghost cpus: seq<Cpu>, available: seq<Slot>, needed: nat, failAt: Option<nat>)
      returns (r: Result)
      requires Lists(cpus, slots, plugged) && available == Select(cpus, false)
      requires m == MachineOf(slots, plugged) && needed <= |m.free|
      modifies this
      ensures var k := if failAt.Some? && failAt.value < needed then failAt.value else needed;
              && plugged == Plug(m, k).plugged
              && r == (if k < needed then Incomplete else Ok)
              && log == old(log) + m.free[..if k < needed then k + 1 else k]
    {
      var sorted := Sort(available, Less);
      SortedFree(cpus, slots, plugged);
      r := PlugFirst(sorted, needed, failAt);
    }

    /** The loop over the sorted free slots. */
    method PlugFirst(cpus: seq<Slot>, needed: nat, failAt: Option<nat>) returns (r: Result)
      requires needed <= |cpus| && Distinct(cpus) && forall x :: x in cpus ==> x in slots && x !in plugged
      modifies this
      ensures var k := if failAt.Some? && failAt.value < needed then failAt.value else needed;
              && plugged == old(plugged) + Elems(cpus[..k])
              && r == (if k < needed then Incomplete else Ok)
              && log == old(log) + cpus[..if k < needed then k + 1 else k]
    {
      for i := 0 to needed
        invariant plugged == old(plugged) + Elems(cpus[..i])
        invariant log == old(log) + cpus[..i]
        invariant failAt.Some? ==> i <= failAt.value
      {
        var cpu := cpus[i];
        TakeSnoc(cpus, i);
        var ok := AddCpu(cpu, failAt == Some(i));
        if !ok {
          return Incomplete;
        }
      }
      return Ok;
    }
  }

  lemma TakeSnoc(s: seq<Slot>, i: nat)
    requires i < |s|
    ensures s[..i + 1] == s[..i] + [s[i]]
    ensures Elems(s[..i + 1]) == Elems(s[..i]) + {s[i]}
    ensures Distinct(s) ==> s[i] !in s[..i]
  {
  }

  /** The query lists every slot once, in any order, saying whether it is plugged. */
  ghost predicate Lists(cpus: seq<Cpu>, slots: set<Slot>, plugged: set<Slot>) {
    && plugged <= slots
    && (forall i :: 0 <= i < |cpus| ==> cpus[i].slot in slots && (cpus[i].plugged <==> cpus[i].slot in plugged))
    && (forall i, j :: 0 <= i < j < |cpus| ==> cpus[i].slot != cpus[j].slot)
    && |cpus| == |slots|
  }

  function Select(cpus: seq<Cpu>, plugged: bool): seq<Slot> {
    if cpus == [] then []
    else
      var init := Select(cpus[..|cpus| - 1], plugged);
      if cpus[|cpus| - 1].plugged == plugged then init + [cpus[|cpus| - 1].slot] else init
  }

  method Separate(cpus: seq<Cpu>) returns (availableCPUs: seq<Slot>, pluggedCPUs: seq<Slot>)
    ensures availableCPUs == Select(cpus, false) && pluggedCPUs == Select(cpus, true)
  {
    availableCPUs, pluggedCPUs := [], [];
    for i := 0 to |cpus|
      invariant availableCPUs == Select(cpus[..i], false) && pluggedCPUs == Select(cpus[..i], true)
    {
      assert cpus[..i + 1][..i] == cpus[..i];
      if !cpus[i].plugged {
        availableCPUs := availableCPUs + [cpus[i].slot];
      } else {
        pluggedCPUs := pluggedCPUs + [cpus[i].slot];
      }
    }
    assert cpus[..|cpus|] == cpus;
  }

  lemma {:induction false} SelectFacts(cpus: seq<Cpu>, plugged: bool)
    requires forall i, j :: 0 <= i < j < |cpus| ==> cpus[i].slot != cpus[j].slot
    ensures Distinct(Select(cpus, plugged))
    ensures forall x :: x in Select(cpus, plugged) <==>
                        exists i :: 0 <= i < |cpus| && cpus[i].slot == x && cpus[i].plugged == plugged
  {
    if cpus != [] {
      var init, last := cpus[..|cpus| - 1], cpus[|cpus| - 1];
      SelectFacts(init, plugged);
      forall i | 0 <= i < |init| ensures init[i].slot != last.slot {
        assert cpus[i] == init[i];
      }
      assert last.slot !in Select(init, plugged);
      forall x ensures x in Select(cpus, plugged) <==>
                       exists i :: 0 <= i < |cpus| && cpus[i].slot == x && cpus[i].plugged == plugged
      {
        if i :| 0 <= i < |cpus| && cpus[i].slot == x && cpus[i].plugged == plugged {
          assert i < |init| ==> init[i] == cpus[i];
        }
        if i :| 0 <= i < |init| && init[i].slot == x && init[i].plugged == plugged {
          assert cpus[i] == init[i];
        }
      }
    }
  }

  lemma SubsetOfSameSize(a: set<Slot>, b: set<Slot>)
    requires a <= b && |a| == |b|
    ensures a == b
  {
    assert b == a + (b - a);
  }

  lemma Selected(cpus: seq<Cpu>, slots: set<Slot>, plugged: set<Slot>)
    requires Lists(cpus, slots, plugged)
    ensures Elems(Select(cpus, false)) == slots - plugged && Distinct(Select(cpus, false))
    ensures Elems(Select(cpus, true)) == plugged && Distinct(Select(cpus, true))
  {
    SelectFacts(cpus, false);
    SelectFacts(cpus, true);
    var all := seq(|cpus|, i requires 0 <= i < |cpus| => cpus[i].slot);
    DistinctCard(all);
    SubsetOfSameSize(Elems(all), slots);
    assert forall x :: x in Elems(Select(cpus, false)) <==> x in Select(cpus, false);
    assert forall x :: x in Elems(Select(cpus, true)) <==> x in Select(cpus, true);
  }

  lemma Counts(cpus: seq<Cpu>, m: Machine, slots: set<Slot>, plugged: set<Slot>)
    requires Lists(cpus, slots, plugged) && m == MachineOf(slots, plugged)
    ensures |Select(cpus, true)| == m.count && |Select(cpus, false)| == |m.free|
  {
    OrderFacts(slots - plugged);
    Selected(cpus, slots, plugged);
    DistinctCard(Select(cpus, true));
    DistinctCard(Select(cpus, false));
  }

  // ---------- what a call does, in terms of the sets alone ----------

  lemma OrderFacts(s: set<Slot>)
    ensures IsOrder(InOrder(s), s, Less) && |InOrder(s)| == |s|
  {
    LessIsTotal();
    OrderIsOrder(s, Less);
    DistinctCard(InOrder(s));
  }

  lemma OrderIsSorted(cpus: seq<Cpu>, slots: set<Slot>, plugged: set<Slot>)
    requires Lists(cpus, slots, plugged)
    ensures Sort(Select(cpus, false), Less) == InOrder(slots - plugged)
  {
    Selected(cpus, slots, plugged);
    LessIsTotal();
    SortIsOrder(Select(cpus, false), Less);
  }

  lemma SortedFree(cpus: seq<Cpu>, slots: set<Slot>, plugged: set<Slot>)
    requires Lists(cpus, slots, plugged)
    ensures var free := Sort(Select(cpus, false), Less);
            && free == InOrder(slots - plugged) && Distinct(free)
            && forall x :: x in free ==> x in slots && x !in plugged
  {
    OrderIsSorted(cpus, slots, plugged);
    OrderFacts(slots - plugged);
    var free := InOrder(slots - plugged);
    assert forall x :: x in free ==> x in Elems(free);
  }

  /** The machine as far as SetCPUs is concerned: the plugged slots, their number, and
      the free slots in order. */
  datatype Machine = Machine(plugged: set<Slot>, count: nat, free: seq<Slot>)

  ghost function MachineOf(slots: set<Slot>, plugged: set<Slot>): Machine {
    Machine(plugged, |plugged|, InOrder(slots - plugged))
  }

  /** Plugs the `k` least free slots. */
  function Plug(m: Machine, k: nat): Machine
    requires k <= |m.free|
  {
    Machine(m.plugged + Elems(m.free[..k]), m.count + k, m.free[k..])
  }

  lemma PlugNothing(m: Machine)
    ensures Plug(m, 0) == m
  {
  }

  /** Plugging the k least and then the j least of the rest plugs the k + j least. */
  lemma PlugTwice(m: Machine, k: nat, j: nat)
    requires k + j <= |m.free|
    ensures Plug(Plug(m, k), j) == Plug(m, k + j)
  {
    ElemsSplit(m.free, k, k + j);
  }

  /** Plug is what happens to the sets. */
  lemma PlugIsReal(slots: set<Slot>, plugged: set<Slot>, k: nat)
    requires plugged <= slots && k <= |InOrder(slots - plugged)|
    ensures var m := Plug(MachineOf(slots, plugged), k);
            plugged <= m.plugged <= slots && MachineOf(slots, m.plugged) == m
  {
    var free := InOrder(slots - plugged);
    OrderFacts(slots - plugged);
    ElemsTake(free, k);
    var p := plugged + Elems(free[..k]);
    assert slots - p == Elems(free) - Elems(free[..k]);
    assert plugged * Elems(free[..k]) == {};
    OrderFacts(slots - p);
    LessIsTotal();
    SortedUnique(InOrder(slots - p), free[k..], Less);
  }

  lemma ElemsSplit(s: seq<Slot>, k: nat, m: nat)
    requires k <= m <= |s|
    ensures Elems(s[..m]) == Elems(s[..k]) + Elems(s[k..][..m - k])
  {
    assert s[..m] == s[..k] + s[k..][..m - k];
  }

  lemma ElemsTake(s: seq<Slot>, k: nat)
    requires Distinct(s) && k <= |s|
    ensures |Elems(s[..k])| == k && Elems(s[..k]) <= Elems(s)
    ensures Elems(s) - Elems(s[..k]) == Elems(s[k..])
    ensures Sorted(s, Less) ==> Sorted(s[k..], Less) && Sorted(s[..k], Less)
  {
    DistinctCard(s[..k]);
    forall x | x in Elems(s) ensures (x in Elems(s[..k]) <==> x !in Elems(s[k..])) {
      var i :| 0 <= i < |s| && s[i] == x;
      if i < k {
        assert s[..k][i] == x;
      } else {
        assert s[k..][i - k] == x;
      }
    }
    assert s == s[..k] + s[k..];
  }

  /** How many device_add calls succeed, and the result, from the number of CPUs needed
      and of free slots. */
  function Needed(needed: int, free: nat, failAt: Option<nat>): (r: (nat, Result))
    ensures r.0 <= free && (r.1 == Ok ==> 0 <= needed <= free) && (r.1 == Incomplete ==> r.0 < free)
  {
    if needed == 0 then (0, Ok)
    else if needed < 0 then (0, NotSupported)
    else if needed > free then (0, NotEnoughSlots)
    else if failAt.Some? && failAt.value < needed then (failAt.value, Incomplete)
    else (needed, Ok)
  }

  function Calls(plugged: nat, free: nat, count: nat, queryOk: bool, failAt: Option<nat>): (r: (nat, Result))
    ensures r.0 <= free && (r.1 == Incomplete ==> r.0 < free)
  {
    if queryOk then Needed(count - plugged, free, failAt) else (0, QueryFailed)
  }

  /** The machine after one call, and its result: the k least free slots are plugged,
      where k is the missing number on success and the number of the failing device_add
      otherwise. */
  function Outcome(m: Machine, count: nat, queryOk: bool, failAt: Option<nat>): (Machine, Result) {
    OutcomeOf(m, Calls(m.count, |m.free|, count, queryOk, failAt))
  }

  function OutcomeOf(m: Machine, c: (nat, Result)): (Machine, Result)
    requires c.0 <= |m.free|
  {
    (Plug(m, c.0), c.1)
  }

  /** The device_add calls made, in order: those that succeed, and the one that fails. */
  function AskedFor(m: Machine, c: (nat, Result)): seq<Slot>
    requires c.0 <= |m.free| && (c.1 == Incomplete ==> c.0 < |m.free|)
  {
    m.free[..if c.1 == Incomplete then c.0 + 1 else c.0]
  }

  function Asked(m: Machine, count: nat, queryOk: bool, failAt: Option<nat>): seq<Slot> {
    AskedFor(m, Calls(m.count, |m.free|, count, queryOk, failAt))
  }

  /** A reachable count is never overshot, and is reached when nothing fails. */
  lemma CallsFacts(plugged: nat, free: nat, count: nat, queryOk: bool, failAt: Option<nat>)
    requires plugged <= count <= plugged + free
    ensures Calls(plugged, free, count, queryOk, failAt).0 <= count - plugged
    ensures Calls(plugged, free, count, true, None) == (count - plugged, Ok)
  {
  }

  /** The answer of SetCPUs, from the numbers of slots alone. */
  lemma ResultIs(slots: set<Slot>, plugged: set<Slot>, count: nat, queryOk: bool, failAt: Option<nat>)
    requires plugged <= slots
    ensures var (m, r) := Outcome(MachineOf(slots, plugged), count, queryOk, failAt);
            && (!queryOk ==> r == QueryFailed && m.plugged == plugged)
            && (queryOk && count == |plugged| ==> r == Ok && m.plugged == plugged)
            && (queryOk && count < |plugged| ==> r == NotSupported && m.plugged == plugged)
            && (queryOk && count > |plugged| && count > |slots| ==> r == NotEnoughSlots && m.plugged == plugged)
            && (queryOk && |plugged| < count <= |slots| ==>
                  if failAt.Some? && failAt.value < count - |plugged|
                  then r == Incomplete && |m.plugged| == |plugged| + failAt.value
                  else r == Ok && |m.plugged| == count)
  {
    var m := MachineOf(slots, plugged);
    FreeCount(slots, plugged);
    PlugNothing(m);
    Reached(slots, plugged, Calls(m.count, |m.free|, count, queryOk, failAt).0);
  }

  // ---------- convergence ----------

  /** An attempt: whether the query answers, and where it fails. */
  datatype Attempt = Attempt(queryOk: bool, failAt: Option<nat>)

  function Attempts(m: Machine, count: nat, t: seq<Attempt>): Machine
    decreases t
  {
    if t == [] then m
    else Attempts(Outcome(m, count, t[0].queryOk, t[0].failAt).0, count, t[1..])
  }

  /** After any number of attempts, failed anywhere, one that meets no failure ends where
      an uninterrupted call would have ended. */
  lemma {:induction false} RetriesConverge(m: Machine, count: nat, t: seq<Attempt>)
    requires m.count <= count <= m.count + |m.free|
    ensures Outcome(Attempts(m, count, t), count, true, None) == (Plug(m, count - m.count), Ok)
    ensures Outcome(m, count, true, None) == (Plug(m, count - m.count), Ok)
    decreases t
  {
    CallsFacts(m.count, |m.free|, count, true, None);
    if t != [] {
      var a := t[0];
      CallsFacts(m.count, |m.free|, count, a.queryOk, a.failAt);
      var k := Calls(m.count, |m.free|, count, a.queryOk, a.failAt).0;
      var m1 := Outcome(m, count, a.queryOk, a.failAt).0;
      PlugTwice(m, k, count - m.count - k);
      RetriesConverge(m1, count, t[1..]);
    }
  }

  /** In terms of the real sets: exactly `count` slots end up plugged, the original ones
      among them. */
  lemma ConvergesToCount(slots: set<Slot>, plugged: set<Slot>, count: nat, t: seq<Attempt>)
    requires plugged <= slots && |plugged| <= count <= |slots|
    ensures var m := MachineOf(slots, plugged);
            var r := Outcome(Attempts(m, count, t), count, true, None);
            && r == Outcome(m, count, true, None) && r.1 == Ok
            && plugged <= r.0.plugged <= slots && |r.0.plugged| == count
  {
    var m := MachineOf(slots, plugged);
    FreeCount(slots, plugged);
    RetriesConverge(m, count, t);
    Reached(slots, plugged, count - |plugged|);
  }

  lemma FreeCount(slots: set<Slot>, plugged: set<Slot>)
    requires plugged <= slots
    ensures |InOrder(slots - plugged)| == |slots| - |plugged|
  {
    SizeOfRest(slots, plugged);
    OrderFacts(slots - plugged);
  }

  lemma Reached(slots: set<Slot>, plugged: set<Slot>, k: nat)
    requires plugged <= slots && k <= |InOrder(slots - plugged)|
    ensures var p := Plug(MachineOf(slots, plugged), k).plugged;
            plugged <= p <= slots && |p| == |plugged| + k
  {
    PlugIsReal(slots, plugged, k);
  }

  lemma SizeOfRest(slots: set<Slot>, plugged: set<Slot>)
    requires plugged <= slots
    ensures |slots - plugged| == |slots| - |plugged|
  {
    assert slots == plugged + (slots - plugged);
  }

  /** The slots a call plugs precede every slot it leaves free. */
  lemma PluggedAreLeast(slots: set<Slot>, plugged: set<Slot>, k: nat, x: Slot, y: Slot)
    requires k <= |InOrder(slots - plugged)|
    requires var p := Plug(MachineOf(slots, plugged), k).plugged; x in p && x !in plugged && y in slots && y !in p
    ensures || x.socket < y.socket
            || (x.socket == y.socket && x.core < y.core)
            || (x.socket == y.socket && x.core == y.core && x.thread < y.thread)
  {
    var free := InOrder(slots - plugged);
    OrderFacts(slots - plugged);
    assert x in Elems(free[..k]) && y !in Elems(free[..k]) && y in Elems(free);
    var i :| 0 <= i < k && free[i] == x;
    var j :| 0 <= j < |free| && free[j] == y;
    assert forall m :: 0 <= m < k ==> free[m] in free[..k];
    LessTotal(x, y);
  }

  /** The order in which free slots are asked for: by socket, then by core, then by thread. */
  lemma InOrderIs(slots: set<Slot>, i: nat, j: nat)
    requires i < j < |InOrder(slots)|
    ensures var x, y := InOrder(slots)[i], InOrder(slots)[j];
            || x.socket < y.socket
            || (x.socket == y.socket && x.core < y.core)
            || (x.socket == y.socket && x.core == y.core && x.thread < y.thread)
  {
    OrderFacts(slots);
    LessTotal(InOrder(slots)[i], InOrder(slots)[j]);
  }

  /** The device_add calls of one SetCPUs are for free slots, each once, in that order, and
      every free slot not asked for comes later. */
  lemma AskedInOrder(slots: set<Slot>, plugged: set<Slot>, count: nat, queryOk: bool, failAt: Option<nat>,
                     i: nat, y: Slot)
    requires i < |Asked(MachineOf(slots, plugged), count, queryOk, failAt)|
    requires y in slots && y !in plugged && y !in Asked(MachineOf(slots, plugged), count, queryOk, failAt)[..i + 1]
    ensures var x := Asked(MachineOf(slots, plugged), count, queryOk, failAt)[i];
            && x in slots && x !in plugged
            && (|| x.socket < y.socket
                || (x.socket == y.socket && x.core < y.core)
                || (x.socket == y.socket && x.core == y.core && x.thread < y.thread))
  {
    var free := InOrder(slots - plugged);
    var asked := Asked(MachineOf(slots, plugged), count, queryOk, failAt);
    OrderFacts(slots - plugged);
    assert free[i] in Elems(free) && y in Elems(free);
    var j :| 0 <= j < |free| && free[j] == y;
    assert forall k :: 0 <= k <= i ==> asked[..i + 1][k] == free[k];
    InOrderIs(slots - plugged, i, j);
  }

  lemma LessTotal(x: Slot, y: Slot)
    ensures x == y || Less(x, y) || Less(y, x)
  {
  }
}

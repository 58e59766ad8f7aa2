/** The machine description (machine/description.go): controllers made on first use, and
    the hot-plugs collected while the configuration is built. */
module MachineDescription {
  import opened PcieAllocator
  import opened Text

  const SCSI := Device("scsi", false)
  const SERIAL := Device("serial", false)

  /** The allocator's devices, None before there is an allocator; the lazily made parts. */
  datatype State = State(created: bool, devices: seq<Device>, scsi: bool, serial: bool)

  const EMPTY := State(false, [], false, false)

  /** The calls a client makes; Add is Pcie().AddDevice(device). */
  datatype Call = UsePcie | Add(device: Device) | UseScsi | UseSerial

  predicate Makes(s: State, c: Call) { (c.UseScsi? && !s.scsi) || (c.UseSerial? && !s.serial) || c.Add? }

  function DeviceOf(c: Call): Device {
    match c
    case UsePcie => SCSI
    case Add(d) => d
    case UseScsi => SCSI
    case UseSerial => SERIAL
  }

  function Do(s: State, c: Call): State {
    State(s.created || c.UsePcie? || Makes(s, c),
          if Makes(s, c) then s.devices + [DeviceOf(c)] else s.devices,
          s.scsi || c.UseScsi?, s.serial || c.UseSerial?)
  }

  function Run(s: State, t: seq<Call>): State
    decreases t
  {
    if t == [] then s else Run(Do(s, t[0]), t[1..])
  }

  // ---------- the code ----------

  /** A device's GetHotplugs: what it returns for the allocation it got. */
  type Getter<T> = (Device, Allocation) -> seq<T>

  class Description {
    var pcie: BusAllocator?
    var scsi: bool
    var serial: bool

    function Now(): State
      reads this, pcie
    {
      State(pcie != null, if pcie == null then [] else pcie.devices, scsi, serial)
    }

    ghost predicate Valid()
      reads this
    {
      (scsi || serial) ==> pcie != null
    }

    constructor ()
      ensures Valid() && Now() == EMPTY
    {
      pcie, scsi, serial := null, false, false;
    }

    method Pcie() returns (bus: BusAllocator)
      modifies this`pcie
      ensures bus == pcie && (old(pcie) != null ==> pcie == old(pcie)) && (old(pcie) == null ==> fresh(bus))
      ensures Now() == Do(old(Now()), UsePcie)
    {
      if pcie == null {
        pcie := new BusAllocator();
      }
      return pcie;
    }

    method AddPcie(device: Device)
      requires Valid()
      modifies this, pcie
      ensures Valid() && Now() == Do(old(Now()), Add(device))
      ensures pcie != null && pcie.devices == (if old(pcie) == null then [] else old(pcie.devices)) + [device]
    {
      var bus := Pcie();
      bus.AddDevice(device);
    }

    method Scsi()
      requires Valid()
      modifies this, pcie
      ensures Valid() && Now() == Do(old(Now()), UseScsi)
      ensures old(scsi) ==> pcie == old(pcie) && Now() == old(Now())
      ensures !old(scsi) ==>
                pcie != null
                && pcie.devices == (if old(pcie) == null then [] else old(pcie.devices)) + [Device("scsi", false)]
    {
      if !scsi {
        scsi := true;
        var bus := Pcie();
        bus.AddDevice(SCSI);
      }
    }

    method Serial()
      requires Valid()
      modifies this, pcie
      ensures Valid() && Now() == Do(old(Now()), UseSerial)
      ensures old(serial) ==> pcie == old(pcie) && Now() == old(Now())
      ensures !old(serial) ==>
                pcie != null
                && pcie.devices == (if old(pcie) == null then [] else old(pcie.devices)) + [Device("serial", false)]
    {
      if !serial {
        serial := true;
        var bus := Pcie();
        bus.AddDevice(SERIAL);
      }
    }

    /** Without an allocator the call panics. */
    method BuildConfig<T>(get: Getter<T>) returns (panics: bool, hotplugs: seq<T>)
      requires Valid()
      ensures panics == !Now().created
      ensures !panics ==> var cold, hot := Filter(Now().devices, false), Filter(Now().devices, true);
                          hotplugs == ColdPlugs(cold, |cold|, Reporter(get))
                                      + HotPlugs(HotBase(|cold|), hot, |hot|, Reporter(get))
    {
      hotplugs := [];
      if pcie == null {
        return true, hotplugs;
      }
      var allocations := pcie.Allocate();
      hotplugs := CollectAll(allocations, get);
      HotplugOrder(allocations, Filter(pcie.devices, false), Filter(pcie.devices, true), get);
      return false, hotplugs;
    }
  }

  /** The loop over the allocations. */
  method CollectAll<T>(allocations: seq<Allocation>, get: Getter<T>) returns (hotplugs: seq<T>)
    ensures hotplugs == Collect(allocations, get, |allocations|)
  {
    hotplugs := [];
    for i := 0 to |allocations|
      invariant hotplugs == Collect(allocations, get, i)
    {
      hotplugs := hotplugs + PlugsOf(allocations[i], get);
    }
  }

  /** Root ports report nothing. */
  function PlugsOf<T>(a: Allocation, get: Getter<T>): seq<T> {
    if a.node.Plugged? then get(a.node.device, a) else []
  }

  /** What the first `n` allocations report. */
  function Collect<T>(allocations: seq<Allocation>, get: Getter<T>, n: nat): seq<T>
    requires n <= |allocations|
  {
    if n == 0 then [] else Collect(allocations, get, n - 1) + PlugsOf(allocations[n - 1], get)
  }

  // ---------- lazily made parts ----------

  lemma {:induction false} RunConcat(s: State, a: seq<Call>, b: seq<Call>)
    ensures Run(s, a + b) == Run(Run(s, a), b)
    decreases a
  {
    if a == [] {
      assert a + b == b;
    } else {
      assert (a + b)[1..] == a[1..] + b;
      RunConcat(Do(s, a[0]), a[1..], b);
    }
  }

  lemma {:induction false} Remembers(s: State, t: seq<Call>)
    ensures UseScsi in t || s.scsi <==> Run(s, t).scsi
    ensures UseSerial in t || s.serial <==> Run(s, t).serial
    decreases t
  {
    if t != [] {
      Remembers(Do(s, t[0]), t[1..]);
    }
  }

  /** What each call puts on the bus. */
  lemma DevicesAre(s: State, d: Device)
    ensures Do(s, UsePcie).devices == s.devices && Do(s, Add(d)).devices == s.devices + [d]
    ensures Do(s, UseScsi).devices == if s.scsi then s.devices else s.devices + [Device("scsi", false)]
    ensures Do(s, UseSerial).devices == if s.serial then s.devices else s.devices + [Device("serial", false)]
    ensures Do(s, UseScsi).scsi && Do(s, UseSerial).serial && Do(s, UsePcie).created && Do(s, Add(d)).created
  {
  }

  /** Asking again for a controller changes nothing, wherever the calls stand. */
  lemma AskingAgain(s: State, a: seq<Call>, c: Call, b: seq<Call>)
    requires c.UseScsi? || c.UseSerial?
    requires c in a && (s.scsi || s.serial ==> s.created)
    ensures Run(s, a + [c] + b) == Run(s, a + b)
  {
    RunConcat(s, a + [c], b);
    RunConcat(s, a, [c]);
    RunConcat(s, a, b);
    Remembers(s, a);
    CreatedWithParts(s, a, c);
    assert [c][1..] == [];
    assert Run(Run(s, a), [c]) == Do(Run(s, a), c);
  }

  lemma {:induction false} CreatedWithParts(s: State, t: seq<Call>, c: Call)
    requires c in t || (c == UseScsi && s.scsi && s.created) || (c == UseSerial && s.serial && s.created)
    requires c.UseScsi? || c.UseSerial?
    requires s.scsi || s.serial ==> s.created
    ensures Run(s, t).created
    decreases t
  {
    if t != [] {
      var r := Do(s, t[0]);
      assert s.created ==> r.created;
      CreatedWithParts(r, t[1..], c);
    }
  }

  // ---------- the order of the hot-plugs ----------

  /** What an entry of the layout gives: nothing for a root port, and for a device what it
      reports for the allocation that renders the entry. */
  function Reporter<T>(get: Getter<T>): Item -> seq<T> {
    (x: Item) => if x.Port? then [] else get(x.device, Render(x))
  }

  lemma ReporterIsSilent<T>(get: Getter<T>)
    ensures PortsSilent(Reporter(get))
  {
  }

  ghost predicate PortsSilent<T>(g: Item -> seq<T>) { forall p: nat :: g(Port(p)) == [] }

  /** What the first `k` devices present at boot report, in the order they were added:
      device k is function k%8 behind port 8 + k/8. */
  function ColdPlugs<T>(cold: seq<Device>, k: nat, g: Item -> seq<T>): seq<T>
    requires k <= |cold|
  {
    if k == 0 then []
    else ColdPlugs(cold, k - 1, g) + g(ColdItem(cold, k - 1))
  }

  function ColdItem(cold: seq<Device>, j: nat): Item
    requires j < |cold|
  {
    Cold(cold[j], 8 + j / 8, j % 8)
  }

  /** The first port after those of `n` devices present at boot. */
  function HotBase(n: nat): nat { if n == 0 then 8 else HotBase(n - 1) + (if (n - 1) % 8 == 0 then 1 else 0) }

  lemma {:induction false} HotBaseIs(n: nat)
    ensures HotBase(n) == 8 + Ceil8(n)
  {
    if n > 0 {
      HotBaseIs(n - 1);
    }
  }

  /** What the first `j` hot-plugged devices report: each has a port of its own. */
  function HotPlugs<T>(base: nat, hot: seq<Device>, j: nat, g: Item -> seq<T>): seq<T>
    requires j <= |hot|
  {
    if j == 0 then [] else HotPlugs(base, hot, j - 1, g) + g(Hot(hot[j - 1], base + j - 1))
  }

  /** What the first `n` entries of a layout give. */
  function Plan<T>(items: seq<Item>, g: Item -> seq<T>, n: nat): seq<T>
    requires n <= |items|
  {
    if n == 0 then [] else Plan(items, g, n - 1) + g(items[n - 1])
  }

  function PlanAll<T>(items: seq<Item>, g: Item -> seq<T>): seq<T> { Plan(items, g, |items|) }

  lemma {:induction false} PlanIsCollect<T>(items: seq<Item>, get: Getter<T>, n: nat)
    requires n <= |items|
    ensures Collect(RenderAll(items), get, n) == Plan(items, Reporter(get), n)
  {
    if n > 0 {
      PlanIsCollect(items, get, n - 1);
      RenderKeepsDevice(items[n - 1]);
    }
  }

  lemma RenderKeepsDevice(x: Item)
    ensures if x.Port? then Render(x).node.RootPort? else Render(x).node == Plugged(x.device)
  {
  }

  lemma {:induction false} PlanConcat<T>(a: seq<Item>, b: seq<Item>, g: Item -> seq<T>, n: nat)
    requires n <= |b|
    ensures Plan(a + b, g, |a| + n) == PlanAll(a, g) + Plan(b, g, n)
  {
    if n == 0 {
      PlanPrefix(a, a + b, g, |a|);
    } else {
      PlanConcat(a, b, g, n - 1);
    }
  }

  lemma {:induction false} PlanPrefix<T>(a: seq<Item>, c: seq<Item>, g: Item -> seq<T>, n: nat)
    requires n <= |a| <= |c| && forall i :: 0 <= i < n ==> a[i] == c[i]
    ensures Plan(c, g, n) == Plan(a, g, n)
  {
    if n > 0 {
      PlanPrefix(a, c, g, n - 1);
    }
  }

  /** A device adds its reports, with or without a new port before it. */
  lemma PlanStep<T>(init: seq<Item>, all: seq<Item>, tail: seq<Item>, x: Item, g: Item -> seq<T>)
    requires PortsSilent(g) && all == init + tail
    requires tail == [x] || (|tail| == 2 && tail[0].Port? && tail[1] == x)
    ensures PlanAll(all, g) == PlanAll(init, g) + g(x)
  {
    PlanConcat(init, tail, g, |tail|);
    if |tail| == 2 {
      assert g(tail[0]) == [];
      assert Plan(tail, g, 1) == Plan(tail, g, 0) + g(tail[0]);
      assert Plan(tail, g, 2) == Plan(tail, g, 1) + g(tail[1]);
    } else {
      assert Plan(tail, g, 1) == Plan(tail, g, 0) + g(tail[0]);
    }
  }

  lemma {:induction false} PlanCold<T>(cold: seq<Device>, k: nat, g: Item -> seq<T>)
    requires k <= |cold| && PortsSilent(g)
    ensures PlanAll(ColdPart(cold, k), g) == ColdPlugs(cold, k, g)
  {
    if k > 0 {
      PlanCold(cold, k - 1, g);
      var tail := ColdItems(cold, k - 1);
      ColdTail(cold, k - 1);
      PlanStep(ColdPart(cold, k - 1), ColdPart(cold, k), tail, ColdItem(cold, k - 1), g);
    }
  }

  lemma ColdTail(cold: seq<Device>, j: nat)
    requires j < |cold|
    ensures var tail := ColdItems(cold, j);
            tail == [ColdItem(cold, j)] || (|tail| == 2 && tail[0].Port? && tail[1] == ColdItem(cold, j))
  {
    assert (FIRST + j) / 8 == 8 + j / 8 && (FIRST + j) % 8 == j % 8;
  }

  lemma {:induction false} PlanHot<T>(base: nat, hot: seq<Device>, j: nat, g: Item -> seq<T>)
    requires j <= |hot| && PortsSilent(g)
    ensures PlanAll(HotPart(base, hot, j), g) == HotPlugs(base, hot, j, g)
  {
    if j > 0 {
      PlanHot(base, hot, j - 1, g);
      var x := Hot(hot[j - 1], base + j - 1);
      PlanStep(HotPart(base, hot, j - 1), HotPart(base, hot, j), [Port(base + j - 1), x], x, g);
    }
  }

  lemma {:induction false} PlanPorts<T>(items: seq<Item>, g: Item -> seq<T>, n: nat)
    requires PortsSilent(g) && n <= |items| && forall i :: 0 <= i < n ==> items[i].Port?
    ensures Plan(items, g, n) == []
  {
    if n > 0 {
      PlanPorts(items, g, n - 1);
      assert g(items[n - 1]) == [];
    }
  }

  lemma PlanParts<T>(items: seq<Item>, cold: seq<Device>, hot: seq<Device>, base: nat, hi: nat, g: Item -> seq<T>)
    requires PortsSilent(g) && ThreeParts(items, cold, hot, base, hi)
    ensures PlanAll(items, g) == ColdPlugs(cold, |cold|, g) + HotPlugs(base, hot, |hot|, g)
  {
    var a, b, c := ColdPart(cold, |cold|), HotPart(base, hot, |hot|), PortPart(base + |hot|, hi);
    forall i | 0 <= i < |c| ensures c[i].Port? {
      PortPartAt(base + |hot|, hi, i);
    }
    PlanCold(cold, |cold|, g);
    PlanHot(base, hot, |hot|, g);
    PlanPorts(c, g, |c|);
    PlanThree(a, b, c, g);
  }

  lemma PlanThree<T>(a: seq<Item>, b: seq<Item>, c: seq<Item>, g: Item -> seq<T>)
    ensures PlanAll(a + b + c, g) == PlanAll(a, g) + PlanAll(b, g) + PlanAll(c, g)
  {
    PlanConcat(a + b, c, g, |c|);
    PlanConcat(a, b, g, |b|);
  }

  /** The allocations render a layout of three parts. */
  lemma AllocationsShape(allocations: seq<Allocation>, cold: seq<Device>, hot: seq<Device>)
    returns (items: seq<Item>, base: nat, hi: nat)
    requires |allocations| == Total(|cold|, |hot|)
    requires forall i :: 0 <= i < |allocations| ==> allocations[i] == Render(Entry(cold, hot, i))
    ensures allocations == RenderAll(items) && base == HotBase(|cold|) && base + |hot| <= hi
    ensures items == ColdPart(cold, |cold|) + HotPart(base, hot, |hot|) + PortPart(base + |hot|, hi)
  {
    HotBaseIs(|cold|);
    items, base, hi := Items(cold, hot), HotBase(|cold|), HotBase(|cold|) + |hot| + SPARE;
    AllocationsAre(allocations, cold, hot);
  }

  lemma AllocationsAre(allocations: seq<Allocation>, cold: seq<Device>, hot: seq<Device>)
    requires |allocations| == Total(|cold|, |hot|)
    requires forall i :: 0 <= i < |allocations| ==> allocations[i] == Render(Entry(cold, hot, i))
    ensures allocations == RenderAll(Items(cold, hot))
  {
    forall i | 0 <= i < |allocations| ensures allocations[i] == RenderAll(Items(cold, hot))[i] {
      ItemsAt(cold, hot, i);
    }
  }

  /** A layout in the three parts that Allocate makes. */
  predicate ThreeParts(items: seq<Item>, cold: seq<Device>, hot: seq<Device>, base: nat, hi: nat) {
    base + |hot| <= hi
    && items == ColdPart(cold, |cold|) + HotPart(base, hot, |hot|) + PortPart(base + |hot|, hi)
  }

  lemma CollectedLayout<T>(allocations: seq<Allocation>, cold: seq<Device>, hot: seq<Device>, get: Getter<T>)
    returns (items: seq<Item>, base: nat, hi: nat)
    requires |allocations| == Total(|cold|, |hot|)
    requires forall i :: 0 <= i < |allocations| ==> allocations[i] == Render(Entry(cold, hot, i))
    ensures Collect(allocations, get, |allocations|) == PlanAll(items, Reporter(get))
    ensures base == HotBase(|cold|) && ThreeParts(items, cold, hot, base, hi)
  {
    items, base, hi := AllocationsShape(allocations, cold, hot);
    PlanIsCollect(items, get, |items|);
  }

  lemma CollectedPlugs<T>(allocations: seq<Allocation>, cold: seq<Device>, hot: seq<Device>, get: Getter<T>)
    returns (base: nat)
    requires |allocations| == Total(|cold|, |hot|)
    requires forall i :: 0 <= i < |allocations| ==> allocations[i] == Render(Entry(cold, hot, i))
    ensures base == HotBase(|cold|)
    ensures Collect(allocations, get, |allocations|)
            == ColdPlugs(cold, |cold|, Reporter(get)) + HotPlugs(base, hot, |hot|, Reporter(get))
  {
    var items, hi;
    items, base, hi := CollectedLayout(allocations, cold, hot, get);
    ReporterIsSilent(get);
    PlanParts(items, cold, hot, base, hi, Reporter(get));
  }

  /** The hot-plugs are those of the devices present at boot and then those of the
      hot-plugged ones, in the order each class was added, each with the address of its
      device; none is lost and none repeated. */
  lemma HotplugOrder<T>(allocations: seq<Allocation>, cold: seq<Device>, hot: seq<Device>, get: Getter<T>)
    requires |allocations| == Total(|cold|, |hot|)
    requires forall i :: 0 <= i < |allocations| ==> allocations[i] == Render(Entry(cold, hot, i))
    ensures Collect(allocations, get, |allocations|)
            == ColdPlugs(cold, |cold|, Reporter(get)) + HotPlugs(HotBase(|cold|), hot, |hot|, Reporter(get))
  {
    var base := CollectedPlugs(allocations, cold, hot, get);
  }

  // ---------- written out ----------

  /** What boot device k reports for function k%8 behind port 8 + k/8. */
  function ColdReport<T>(cold: seq<Device>, k: nat, get: Getter<T>): seq<T>
    requires k < |cold|
  {
    get(cold[k], Allocation(Plugged(cold[k]), "pcie_port_" + Dec(8 + k / 8), "00." + Dec(k % 8), k % 8 == 0))
  }

  /** What the hotplug device j reports for function 0 of a port of its own. */
  function HotReport<T>(boot: nat, hot: seq<Device>, j: nat, get: Getter<T>): seq<T>
    requires j < |hot|
  {
    get(hot[j], Allocation(Plugged(hot[j]), "pcie_port_" + Dec(8 + (boot + 7) / 8 + j), "00.0", false))
  }

  lemma ColdReportIs<T>(cold: seq<Device>, k: nat, get: Getter<T>)
    requires k < |cold|
    ensures Reporter(get)(ColdItem(cold, k)) == ColdReport(cold, k, get)
  {
    var c := ColdItem(cold, k);
    var g := Reporter(get);
    assert g(c) == get(c.device, Render(c));
    assert Render(c) == Allocation(Plugged(cold[k]), "pcie_port_" + Dec(8 + k / 8), "00." + Dec(k % 8), k % 8 == 0);
  }

  lemma HotReportIs<T>(boot: nat, hot: seq<Device>, j: nat, get: Getter<T>)
    requires j < |hot|
    ensures Reporter(get)(Hot(hot[j], HotBase(boot) + j)) == HotReport(boot, hot, j, get)
  {
    HotBaseIs(boot);
    var x := Hot(hot[j], HotBase(boot) + j);
    var g := Reporter(get);
    assert g(x) == get(hot[j], Render(x));
  }

  /** Each boot device adds what it reports at the end, and so does each hotplug device. */
  lemma PlugsAre<T>(cold: seq<Device>, hot: seq<Device>, k: nat, j: nat, get: Getter<T>)
    requires 0 < k <= |cold| && 0 < j <= |hot|
    ensures ColdPlugs(cold, 0, Reporter(get)) == [] && HotPlugs(HotBase(|cold|), hot, 0, Reporter(get)) == []
    ensures ColdPlugs(cold, k, Reporter(get)) == ColdPlugs(cold, k - 1, Reporter(get)) + ColdReport(cold, k - 1, get)
    ensures HotPlugs(HotBase(|cold|), hot, j, Reporter(get))
         == HotPlugs(HotBase(|cold|), hot, j - 1, Reporter(get)) + HotReport(|cold|, hot, j - 1, get)
  {
    ColdReportIs(cold, k - 1, get);
    HotReportIs(|cold|, hot, j - 1, get);
  }
}

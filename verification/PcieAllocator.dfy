/** The PCIe allocator of devices/pcie/bus.go: three loops over one counter that hand
    out root ports and addresses, and the closed form they compute. */
module PcieAllocator {
  import opened Text

  datatype Device = Device(id: string, hotplug: bool)

  datatype Node = RootPort(id: string, index: nat) | Plugged(device: Device)

  datatype Allocation = Allocation(node: Node, bus: string, addr: string, multifunction: bool)

  const ROOT_BUS := "pcie.0"
  const FIRST := 64             // slot 0 belongs to the DRAM controller
  const SPARE := 8

  // ---------- what an entry says, before it is written out ----------

  /** A root port by number, or a device at a function behind one. */
  datatype Item =
    | Port(port: nat)
    | Cold(device: Device, port: nat, fn: nat)
    | Hot(device: Device, port: nat)

  function PortName(port: nat): string { "pcie_port_" + Dec(port) }

  /** Port number `p` on the root bus is slot p/8, function p%8. */
  function Render(x: Item): Allocation {
    match x
    case Port(p) =>
      Allocation(RootPort(PortName(p), p), ROOT_BUS, Hex(p / 8) + "." + Dec(p % 8), p % 8 == 0)
    case Cold(d, p, fn) =>
      Allocation(Plugged(d), PortName(p), "00." + Dec(fn), fn == 0)
    case Hot(d, p) =>
      Allocation(Plugged(d), PortName(p), "00.0", false)
  }

  function RenderAll(items: seq<Item>): (r: seq<Allocation>)
    ensures |r| == |items|
    ensures forall i :: 0 <= i < |items| ==> r[i] == Render(items[i])
  {
    seq(|items|, i requires 0 <= i < |items| => Render(items[i]))
  }

  function Filter(ds: seq<Device>, hotplug: bool): seq<Device> {
    if ds == [] then []
    else
      var init := Filter(ds[..|ds| - 1], hotplug);
      if ds[|ds| - 1].hotplug == hotplug then init + [ds[|ds| - 1]] else init
  }

  // ---------- the closed form ----------

  function Ceil8(n: nat): nat { (n + 7) / 8 }

  /** Number of entries for the first `k` non-hotplug devices and their ports. */
  function ColdLength(k: nat): nat { k + Ceil8(k) }

  function Total(n: nat, h: nat): nat { ColdLength(n) + 2 * h + SPARE }

  /** Entry `i`: a port before every eighth non-hotplug device; then a port before each
      hotplug device; then spare ports. */
  function Entry(cold: seq<Device>, hot: seq<Device>, i: nat): Item
    requires i < Total(|cold|, |hot|)
  {
    var c, base := ColdLength(|cold|), 8 + Ceil8(|cold|);
    if i < c then ColdEntry(cold, i)
    else if i < c + 2 * |hot| then HotEntry(base, hot, i - c)
    else Port(base + |hot| + (i - c - 2 * |hot|))
  }

  function ColdEntry(cold: seq<Device>, i: nat): Item
    requires i < ColdLength(|cold|)
  {
    if i % 9 == 0 then Port(8 + i / 9) else Cold(cold[i - i / 9 - 1], 8 + i / 9, i % 9 - 1)
  }

  function HotEntry(base: nat, hot: seq<Device>, i: nat): Item
    requires i < 2 * |hot|
  {
    if i % 2 == 0 then Port(base + i / 2) else Hot(hot[i / 2], base + i / 2)
  }

  // ---------- the same list, built up part by part ----------

  lemma ColdLengthStep(k: nat)
    ensures (FIRST + k) % 8 == k % 8
    ensures ColdLength(k + 1) == ColdLength(k) + if k % 8 == 0 then 2 else 1
  {
  }

  function ColdItems(cold: seq<Device>, k: nat): (r: seq<Item>)
    requires k < |cold|
    ensures |r| == if (FIRST + k) % 8 == 0 then 2 else 1
  {
    var i := FIRST + k;
    (if i % 8 == 0 then [Port(i / 8)] else []) + [Cold(cold[k], i / 8, i % 8)]
  }

  function ColdPart(cold: seq<Device>, k: nat): (r: seq<Item>)
    requires k <= |cold|
    ensures |r| == ColdLength(k)
  {
    if k == 0 then [] else
      ColdLengthStep(k - 1);
      ColdPart(cold, k - 1) + ColdItems(cold, k - 1)
  }

  function HotPart(base: nat, hot: seq<Device>, j: nat): (r: seq<Item>)
    requires j <= |hot|
    ensures |r| == 2 * j
  {
    if j == 0 then []
    else HotPart(base, hot, j - 1) + [Port(base + j - 1), Hot(hot[j - 1], base + j - 1)]
  }

  /** Ports `lo` to `hi` with nothing behind them. */
  function PortPart(lo: nat, hi: nat): (r: seq<Item>)
    requires lo <= hi
    ensures |r| == hi - lo
    decreases hi
  {
    if lo == hi then [] else PortPart(lo, hi - 1) + [Port(hi - 1)]
  }

  function Items(cold: seq<Device>, hot: seq<Device>): (r: seq<Item>)
    ensures |r| == Total(|cold|, |hot|)
  {
    var base := 8 + Ceil8(|cold|);
    ColdPart(cold, |cold|) + HotPart(base, hot, |hot|) + PortPart(base + |hot|, base + |hot| + SPARE)
  }

  // ---------- they agree ----------

  /** Non-hotplug device `k` is entry k + k/8 + 1; a new port comes just before. */
  lemma ColdIndex(k: nat, at: nat)
    requires at == k + k / 8 + 1
    ensures at + 1 == ColdLength(k + 1)
    ensures at / 9 == k / 8 && at % 9 == k % 8 + 1
    ensures (FIRST + k) / 8 == 8 + k / 8 && (FIRST + k) % 8 == k % 8
    ensures ColdLength(k) == if k % 8 == 0 then at - 1 else at
    ensures k % 8 == 0 ==> (at - 1) % 9 == 0 && (at - 1) / 9 == k / 8
  {
  }

  lemma {:induction false} ColdPartAt(cold: seq<Device>, k: nat, i: nat)
    requires k <= |cold| && i < ColdLength(k)
    ensures i < ColdLength(|cold|) && ColdPart(cold, k)[i] == ColdEntry(cold, i)
  {
    var before := ColdLength(k - 1);
    if i < before {
      ColdPartAt(cold, k - 1, i);
    } else {
      var at := (k - 1) + (k - 1) / 8 + 1;
      ColdIndex(k - 1, at);
      assert i == at || (i == at - 1 && (k - 1) % 8 == 0);
      assert ColdItems(cold, k - 1)[i - before] == ColdEntry(cold, i);
    }
  }

  lemma {:induction false} HotPartAt(base: nat, hot: seq<Device>, j: nat, i: nat)
    requires j <= |hot| && i < 2 * j
    ensures HotPart(base, hot, j)[i] == HotEntry(base, hot, i)
  {
    if i < 2 * (j - 1) {
      HotPartAt(base, hot, j - 1, i);
    }
  }

  lemma {:induction false} PortPartAt(lo: nat, hi: nat, i: nat)
    requires lo <= hi && i < hi - lo
    ensures PortPart(lo, hi)[i] == Port(lo + i)
    decreases hi
  {
    if lo + i < hi - 1 {
      PortPartAt(lo, hi - 1, i);
    }
  }

  lemma ItemsAt(cold: seq<Device>, hot: seq<Device>, i: nat)
    requires i < Total(|cold|, |hot|)
    ensures Items(cold, hot)[i] == Entry(cold, hot, i)
  {
    var c, base := ColdLength(|cold|), 8 + Ceil8(|cold|);
    if i < c {
      ColdPartAt(cold, |cold|, i);
    } else if i < c + 2 * |hot| {
      HotPartAt(base, hot, |hot|, i - c);
    } else {
      PortPartAt(base + |hot|, base + |hot| + SPARE, i - c - 2 * |hot|);
    }
  }

  // ---------- what is written out ----------

  lemma {:induction false} FilterKeeps(ds: seq<Device>, hotplug: bool)
    ensures forall i :: 0 <= i < |Filter(ds, hotplug)| ==> Filter(ds, hotplug)[i].hotplug == hotplug
  {
    if ds != [] {
      FilterKeeps(ds[..|ds| - 1], hotplug);
    }
  }

  /** Root port number p: its id and chassis number, its slot p/8 in hexadecimal and its
      function p%8 on the root bus; function 0 is multifunction. */
  lemma PortTextIs(a: Allocation, x: Item)
    requires x.Port? && a == Render(x)
    ensures a.node.RootPort? && a.node.index == x.port && a.node.id == "pcie_port_" + Dec(x.port)
    ensures a.bus == "pcie.0" && a.addr == Hex(x.port / 8) + "." + Dec(x.port % 8)
    ensures a.multifunction <==> x.port % 8 == 0
  {
  }

  /** A device behind port p: function 0 is multifunction, unless it is a hotplug device. */
  lemma DeviceTextIs(a: Allocation, x: Item)
    requires !x.Port? && a == Render(x)
    ensures a.node == Plugged(x.device) && a.bus == "pcie_port_" + Dec(x.port)
    ensures x.Cold? ==> a.addr == "00." + Dec(x.fn) && (a.multifunction <==> x.fn == 0)
    ensures x.Hot? ==> a.addr == "00.0" && !a.multifunction
    ensures x.Cold? ==> (a.addr == "00.0" <==> x.fn == 0)
  {
    if x.Cold? {
      assert Dec(0) == "0";
      assert a.addr[3..] == Dec(x.fn) && "00.0"[3..] == Dec(0);
      if a.addr == "00.0" {
        PrintInjective(x.fn, 0, 10);
      }
    }
  }

  lemma ColdOrHot(cold: seq<Device>, hot: seq<Device>, i: nat)
    requires i < Total(|cold|, |hot|) && !Entry(cold, hot, i).Port?
    requires (forall k :: 0 <= k < |cold| ==> !cold[k].hotplug) && (forall k :: 0 <= k < |hot| ==> hot[k].hotplug)
    ensures Entry(cold, hot, i).device.hotplug <==> Entry(cold, hot, i).Hot?
  {
  }

  /** A boot device at a nonzero function comes after the device at function 0 of its port. */
  lemma FirstOnPort(cold: seq<Device>, hot: seq<Device>, i: nat) returns (j: nat)
    requires i < Total(|cold|, |hot|) && Entry(cold, hot, i).Cold? && Entry(cold, hot, i).fn != 0
    ensures j < i && Entry(cold, hot, j).Cold?
    ensures Entry(cold, hot, j).fn == 0 && Entry(cold, hot, j).port == Entry(cold, hot, i).port
  {
    j := i / 9 * 9 + 1;
    assert i % 9 > 1 && j % 9 == 1 && j / 9 == i / 9;
  }

  predicate Rendered(allocations: seq<Allocation>, cold: seq<Device>, hot: seq<Device>) {
    && |allocations| == Total(|cold|, |hot|)
    && forall i :: 0 <= i < |allocations| ==> allocations[i] == Render(Entry(cold, hot, i))
  }

  lemma PortsWritten(allocations: seq<Allocation>, cold: seq<Device>, hot: seq<Device>)
    requires Rendered(allocations, cold, hot)
    ensures forall i :: 0 <= i < |allocations| && allocations[i].node.RootPort? ==>
              var a := allocations[i];
              var p := a.node.index;
              && a.node.id == "pcie_port_" + Dec(p) && a.bus == "pcie.0"
              && a.addr == Hex(p / 8) + "." + Dec(p % 8) && (a.multifunction <==> p % 8 == 0)
  {
    forall i | 0 <= i < |allocations| && allocations[i].node.RootPort?
      ensures var a := allocations[i];
              var p := a.node.index;
              && a.node.id == "pcie_port_" + Dec(p) && a.bus == "pcie.0"
              && a.addr == Hex(p / 8) + "." + Dec(p % 8) && (a.multifunction <==> p % 8 == 0)
    {
      if !Entry(cold, hot, i).Port? {
        DeviceTextIs(allocations[i], Entry(cold, hot, i));
      }
      PortTextIs(allocations[i], Entry(cold, hot, i));
    }
  }

  lemma DevicesWritten(allocations: seq<Allocation>, cold: seq<Device>, hot: seq<Device>, i: nat)
    requires Rendered(allocations, cold, hot) && i < |allocations| && allocations[i].node.Plugged?
    requires (forall k :: 0 <= k < |cold| ==> !cold[k].hotplug) && (forall k :: 0 <= k < |hot| ==> hot[k].hotplug)
    ensures var a := allocations[i];
            && (a.multifunction <==> !a.node.device.hotplug && a.addr == "00.0")
            && (a.node.device.hotplug ==> a.addr == "00.0")
    ensures allocations[i].addr != "00.0" ==>
              exists j :: 0 <= j < i && allocations[j].node.Plugged? && allocations[j].bus == allocations[i].bus
                          && allocations[j].addr == "00.0" && allocations[j].multifunction
  {
    var x := Entry(cold, hot, i);
    if x.Port? {
      PortTextIs(allocations[i], x);
    }
    DeviceTextIs(allocations[i], x);
    ColdOrHot(cold, hot, i);
    if allocations[i].addr != "00.0" {
      var j := FirstOnPort(cold, hot, i);
      DeviceTextIs(allocations[j], Entry(cold, hot, j));
    }
  }

  /** Everything Allocate promises of the entries written out. */
  lemma AllocationsFacts(allocations: seq<Allocation>, devices: seq<Device>, cold: seq<Device>, hot: seq<Device>)
    requires allocations == RenderAll(Items(cold, hot))
    requires cold == Filter(devices, false) && hot == Filter(devices, true)
    ensures Rendered(allocations, cold, hot)
    ensures forall i :: 0 <= i < |allocations| && allocations[i].node.RootPort? ==>
              var a := allocations[i];
              var p := a.node.index;
              && a.node.id == "pcie_port_" + Dec(p) && a.bus == "pcie.0"
              && a.addr == Hex(p / 8) + "." + Dec(p % 8) && (a.multifunction <==> p % 8 == 0)
    ensures forall i :: 0 <= i < |allocations| && allocations[i].node.Plugged? ==>
              var a := allocations[i];
              && (a.multifunction <==> !a.node.device.hotplug && a.addr == "00.0")
              && (a.node.device.hotplug ==> a.addr == "00.0")
    ensures forall i :: 0 <= i < |allocations| && allocations[i].node.Plugged? && allocations[i].addr != "00.0" ==>
              exists j :: 0 <= j < i && allocations[j].node.Plugged? && allocations[j].bus == allocations[i].bus
                          && allocations[j].addr == "00.0" && allocations[j].multifunction
  {
    forall i | 0 <= i < |allocations| ensures allocations[i] == Render(Entry(cold, hot, i)) {
      ItemsAt(cold, hot, i);
    }
    FilterKeeps(devices, false);
    FilterKeeps(devices, true);
    PortsWritten(allocations, cold, hot);
    forall i | 0 <= i < |allocations| && allocations[i].node.Plugged?
      ensures var a := allocations[i];
              && (a.multifunction <==> !a.node.device.hotplug && a.addr == "00.0")
              && (a.node.device.hotplug ==> a.addr == "00.0")
              && (a.addr != "00.0" ==>
                    exists j :: 0 <= j < i && allocations[j].node.Plugged? && allocations[j].bus == a.bus
                                && allocations[j].addr == "00.0" && allocations[j].multifunction)
    {
      DevicesWritten(allocations, cold, hot, i);
    }
  }

  // ---------- the loops ----------

  class BusAllocator {
    var devices: seq<Device>

    constructor ()
      ensures devices == []
    {
      devices := [];
    }

    method AddDevice(device: Device)
      modifies this
      ensures devices == old(devices) + [device]
    {
      devices := devices + [device];
    }

    method Allocate() returns (allocations: seq<Allocation>)
      ensures var cold, hot := Filter(devices, false), Filter(devices, true);
              && |allocations| == Total(|cold|, |hot|)
              && forall i :: 0 <= i < |allocations| ==> allocations[i] == Render(Entry(cold, hot, i))
      ensures forall i :: 0 <= i < |allocations| && allocations[i].node.RootPort? ==>
                var a := allocations[i];
                var p := a.node.index;
                && a.node.id == "pcie_port_" + Dec(p) && a.bus == "pcie.0"
                && a.addr == Hex(p / 8) + "." + Dec(p % 8) && (a.multifunction <==> p % 8 == 0)
      ensures forall i :: 0 <= i < |allocations| && allocations[i].node.Plugged? ==>
                var a := allocations[i];
                && (a.multifunction <==> !a.node.device.hotplug && a.addr == "00.0")
                && (a.node.device.hotplug ==> a.addr == "00.0")
      ensures forall i :: 0 <= i < |allocations| && allocations[i].node.Plugged? && allocations[i].addr != "00.0" ==>
                exists j :: 0 <= j < i && allocations[j].node.Plugged? && allocations[j].bus == allocations[i].bus
                            && allocations[j].addr == "00.0" && allocations[j].multifunction
    {
      var hotplugDevices, noHotplugDevices := Partition(devices);
      var i := FIRST;
      i, allocations := AllocateCold(i, noHotplugDevices);
      if i % 8 != 0 {
        i := i + (8 - i % 8);
      }
      i, allocations := AllocateHot(i, allocations, noHotplugDevices, hotplugDevices);
      allocations := AllocateSpare(i, allocations, noHotplugDevices, hotplugDevices);
      AllocationsFacts(allocations, devices, noHotplugDevices, hotplugDevices);
    }
  }

  /** The loop that separates the two classes, each in its own order. */
  method Partition(devices: seq<Device>) returns (hot: seq<Device>, cold: seq<Device>)
    ensures hot == Filter(devices, true) && cold == Filter(devices, false)
  {
    hot, cold := [], [];
    for k := 0 to |devices|
      invariant hot == Filter(devices[..k], true) && cold == Filter(devices[..k], false)
    {
      assert devices[..k + 1][..k] == devices[..k];
      if devices[k].hotplug {
        hot := hot + [devices[k]];
      } else {
        cold := cold + [devices[k]];
      }
    }
    assert devices[..|devices|] == devices;
  }

  lemma RenderSnoc(r: seq<Item>, x: Item)
    ensures RenderAll(r + [x]) == RenderAll(r) + [Render(x)]
  {
  }

  /** The loop over the non-hotplug devices. */
  method AllocateCold(i0: nat, cold: seq<Device>) returns (i: nat, allocations: seq<Allocation>)
    requires i0 == FIRST
    ensures i == FIRST + |cold|
    ensures allocations == RenderAll(ColdPart(cold, |cold|))
  {
    i, allocations := i0, [];
    for k := 0 to |cold|
      invariant i == FIRST + k
      invariant allocations == RenderAll(ColdPart(cold, k))
    {
      var portNum, deviceFn := i / 8, i % 8;
      ghost var items := ColdPart(cold, k);
      if deviceFn == 0 {
        RenderSnoc(items, Port(portNum));
        items := items + [Port(portNum)];
        allocations := allocations + [Render(Port(portNum))];
      }
      RenderSnoc(items, Cold(cold[k], portNum, deviceFn));
      items := items + [Cold(cold[k], portNum, deviceFn)];
      allocations := allocations + [Render(Cold(cold[k], portNum, deviceFn))];
      assert items == ColdPart(cold, k) + ColdItems(cold, k) == ColdPart(cold, k + 1);
      i := i + 1;
    }
  }

  /** The loop over the hotplug devices. */
  method AllocateHot(i0: nat, before: seq<Allocation>, ghost cold: seq<Device>, hot: seq<Device>)
    returns (i: nat, allocations: seq<Allocation>)
    requires i0 == 8 * (8 + Ceil8(|cold|))
    requires before == RenderAll(ColdPart(cold, |cold|))
    ensures i == 8 * (8 + Ceil8(|cold|) + |hot|)
    ensures allocations == RenderAll(ColdPart(cold, |cold|) + HotPart(8 + Ceil8(|cold|), hot, |hot|))
  {
    i, allocations := i0, before;
    ghost var start, base := ColdPart(cold, |cold|), 8 + Ceil8(|cold|);
    assert start + [] == start;
    for j := 0 to |hot|
      invariant i == 8 * (base + j)
      invariant allocations == RenderAll(start + HotPart(base, hot, j))
    {
      var portNum := i / 8;
      ghost var items := start + HotPart(base, hot, j);
      RenderSnoc(items, Port(portNum));
      RenderSnoc(items + [Port(portNum)], Hot(hot[j], portNum));
      allocations := allocations + [Render(Port(portNum))];
      allocations := allocations + [Render(Hot(hot[j], portNum))];
      assert items + [Port(portNum)] + [Hot(hot[j], portNum)] == start + HotPart(base, hot, j + 1);
      i := i + 8;
    }
  }

  lemma OnePortMore(start: seq<Item>, lo: nat, hi: nat)
    requires lo <= hi
    ensures start + PortPart(lo, hi) + [Port(hi)] == start + PortPart(lo, hi + 1)
  {
  }

  /** The loop that adds root ports for later hot-plugging. */
  method AllocateSpare(i0: nat, before: seq<Allocation>, ghost cold: seq<Device>, ghost hot: seq<Device>)
    returns (allocations: seq<Allocation>)
    requires i0 == 8 * (8 + Ceil8(|cold|) + |hot|)
    requires before == RenderAll(ColdPart(cold, |cold|) + HotPart(8 + Ceil8(|cold|), hot, |hot|))
    ensures allocations == RenderAll(Items(cold, hot))
  {
    allocations := AddPorts(i0, before, ColdPart(cold, |cold|) + HotPart(8 + Ceil8(|cold|), hot, |hot|),
                            8 + Ceil8(|cold|) + |hot|, SPARE);
  }

  method AddPorts(i0: nat, before: seq<Allocation>, ghost start: seq<Item>, ghost lo: nat, count: nat)
    returns (allocations: seq<Allocation>)
    requires i0 == 8 * lo && before == RenderAll(start)
    ensures allocations == RenderAll(start + PortPart(lo, lo + count))
  {
    var i := i0;
    allocations := before;
    assert start + [] == start;
    for t := 0 to count
      invariant i == 8 * (lo + t)
      invariant allocations == RenderAll(start + PortPart(lo, lo + t))
    {
      var portNum := i / 8;
      RenderSnoc(start + PortPart(lo, lo + t), Port(portNum));
      allocations := allocations + [Render(Port(portNum))];
      OnePortMore(start, lo, lo + t);
      i := i + 8;
    }
  }
}

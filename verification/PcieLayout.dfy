/** What the closed form of the PCIe allocation guarantees, for every device list. */
module PcieLayout {
  import opened Text
  import opened PcieAllocator

  // ---------- addresses ----------

  lemma PortNameInjective(p: nat, q: nat)
    requires PortName(p) == PortName(q)
    ensures p == q
  {
    assert PortName(p)[|"pcie_port_"|..] == Dec(p) && PortName(q)[|"pcie_port_"|..] == Dec(q);
    PrintInjective(p, q, 10);
  }

  lemma SlotAddrInjective(p: nat, q: nat)
    requires Hex(p / 8) + "." + Dec(p % 8) == Hex(q / 8) + "." + Dec(q % 8)
    ensures p == q
  {
    CutAt(Hex(p / 8), '.', Dec(p % 8));
    CutAt(Hex(q / 8), '.', Dec(q % 8));
    PrintInjective(p / 8, q / 8, 16);
    PrintInjective(p % 8, q % 8, 10);
  }

  /** Where an item sits: on the root bus, or at a function behind a port. */
  function Fn(x: Item): nat { if x.Cold? then x.fn else 0 }

  predicate SamePlace(x: Item, y: Item) {
    (x.Port? <==> y.Port?) && x.port == y.port && Fn(x) == Fn(y)
  }

  lemma DeviceAddr(x: Item)
    requires !x.Port?
    ensures Render(x).addr == "00." + Dec(Fn(x)) && Render(x).bus == PortName(x.port)
    ensures Render(x).bus[4] == '_'
  {
    assert Dec(0) == "0" && "00." + "0" == "00.0";
    assert "pcie_port_"[4] == '_';
  }

  /** Equal bus and address strings mean the same place. */
  lemma RenderSeparates(x: Item, y: Item)
    requires Render(x).bus == Render(y).bus && Render(x).addr == Render(y).addr
    ensures SamePlace(x, y)
  {
    assert ROOT_BUS[4] == '.';
    if !x.Port? {
      DeviceAddr(x);
    }
    if !y.Port? {
      DeviceAddr(y);
    }
    if x.Port? && y.Port? {
      SlotAddrInjective(x.port, y.port);
    } else if !x.Port? && !y.Port? {
      PortNameInjective(x.port, y.port);
      assert Render(x).addr[3..] == Dec(Fn(x)) && Render(y).addr[3..] == Dec(Fn(y));
      PrintInjective(Fn(x), Fn(y), 10);
    }
  }

  lemma ItemsIndex(cold: seq<Device>, hot: seq<Device>, i: nat)
    requires i < Total(|cold|, |hot|)
    ensures RenderAll(Items(cold, hot))[i] == Render(Entry(cold, hot, i))
  {
    ItemsAt(cold, hot, i);
  }

  lemma PlacesDistinct(cold: seq<Device>, hot: seq<Device>, i: nat, j: nat)
    requires i < j < Total(|cold|, |hot|)
    ensures !SamePlace(Entry(cold, hot, i), Entry(cold, hot, j))
    ensures Entry(cold, hot, i).port <= Entry(cold, hot, j).port
  {
  }

  /** No two entries of an allocation have the same bus and address. */
  lemma AddressesDistinct(cold: seq<Device>, hot: seq<Device>, i: nat, j: nat)
    requires i < j < Total(|cold|, |hot|)
    ensures var r := RenderAll(Items(cold, hot));
            r[i].bus != r[j].bus || r[i].addr != r[j].addr
  {
    PlacesDistinct(cold, hot, i, j);
    ItemsIndex(cold, hot, i);
    ItemsIndex(cold, hot, j);
    var x, y := Entry(cold, hot, i), Entry(cold, hot, j);
    if Render(x).bus == Render(y).bus && Render(x).addr == Render(y).addr {
      RenderSeparates(x, y);
    }
  }

  /** Every device sits on the bus of a root port that comes earlier. */
  lemma BusIsEarlierPort(cold: seq<Device>, hot: seq<Device>, i: nat) returns (j: nat)
    requires i < Total(|cold|, |hot|) && RenderAll(Items(cold, hot))[i].node.Plugged?
    ensures j < i
    ensures var r := RenderAll(Items(cold, hot));
            r[j].node.RootPort? && r[j].node.id == r[i].bus
  {
    ItemsIndex(cold, hot, i);
    j := PortBefore(cold, hot, i);
    ItemsIndex(cold, hot, j);
  }

  lemma PortBefore(cold: seq<Device>, hot: seq<Device>, i: nat) returns (j: nat)
    requires i < Total(|cold|, |hot|) && !Entry(cold, hot, i).Port?
    ensures j < i && Entry(cold, hot, j) == Port(Entry(cold, hot, i).port)
  {
    var c := ColdLength(|cold|);
    j := if i < c then i - i % 9 else i - 1;
    assert i < c ==> j % 9 == 0 && j / 9 == i / 9;
  }

  /** A root port at a nonzero function comes after function 0 of its slot, which is
      marked multifunction. */
  lemma FunctionZeroComesFirst(cold: seq<Device>, hot: seq<Device>, i: nat) returns (j: nat)
    requires i < Total(|cold|, |hot|) && Entry(cold, hot, i).Port? && Entry(cold, hot, i).port % 8 != 0
    ensures j < i && Entry(cold, hot, j) == Port(Entry(cold, hot, i).port / 8 * 8)
    ensures RenderAll(Items(cold, hot))[j].multifunction
  {
    j := FunctionZero(cold, hot, i);
    ItemsIndex(cold, hot, j);
    RoundDown(Entry(cold, hot, i).port);
  }

  lemma FunctionZero(cold: seq<Device>, hot: seq<Device>, i: nat) returns (j: nat)
    requires i < Total(|cold|, |hot|) && Entry(cold, hot, i).Port? && Entry(cold, hot, i).port % 8 != 0
    ensures j < i && Entry(cold, hot, j) == Port(Entry(cold, hot, i).port / 8 * 8)
  {
    var p := Entry(cold, hot, i).port / 8 * 8;
    PortRange(cold, hot, i);
    RoundDown(Entry(cold, hot, i).port);
    j := PortAt(|cold|, |hot|, p - 8);
    PortAtIsPort(cold, hot, p - 8);
    if i < j {
      PlacesDistinct(cold, hot, i, j);
    }
  }

  lemma RoundDown(p: nat)
    requires 8 <= p && p % 8 != 0
    ensures 8 <= p / 8 * 8 < p && (p / 8 * 8) % 8 == 0
  {
  }

  lemma PortRange(cold: seq<Device>, hot: seq<Device>, i: nat)
    requires i < Total(|cold|, |hot|)
    ensures 8 <= Entry(cold, hot, i).port < 8 + PortCount(|cold|, |hot|)
  {
  }

  // ---------- root ports in order ----------

  function PortCount(n: nat, h: nat): nat { Ceil8(n) + h + SPARE }

  /** The entry of root port number 8 + q. */
  function PortAt(n: nat, h: nat, q: nat): nat
    requires q < PortCount(n, h)
  {
    if q < Ceil8(n) then 9 * q
    else if q < Ceil8(n) + h then ColdLength(n) + 2 * (q - Ceil8(n))
    else ColdLength(n) + h + q - Ceil8(n)
  }

  lemma PortAtIsPort(cold: seq<Device>, hot: seq<Device>, q: nat)
    requires q < PortCount(|cold|, |hot|)
    ensures PortAt(|cold|, |hot|, q) < Total(|cold|, |hot|)
    ensures Entry(cold, hot, PortAt(|cold|, |hot|, q)) == Port(8 + q)
  {
  }

  /** Every root-port entry is one of those: the ports are numbered consecutively from 8,
      each once, in increasing order (PlacesDistinct), the last SPARE of them empty. */
  lemma PortsAreConsecutive(cold: seq<Device>, hot: seq<Device>, i: nat)
    requires i < Total(|cold|, |hot|) && Entry(cold, hot, i).Port?
    ensures 8 <= Entry(cold, hot, i).port < 8 + PortCount(|cold|, |hot|)
    ensures PortAt(|cold|, |hot|, Entry(cold, hot, i).port - 8) == i
  {
    var c := ColdLength(|cold|);
    if i < c {
      assert i % 9 == 0 && i == 9 * (i / 9);
    } else if i < c + 2 * |hot| {
      assert i - c == 2 * ((i - c) / 2);
    }
  }

  // ---------- devices in order ----------

  /** The entry of device number `m` of `cold + hot`. */
  function DeviceAt(n: nat, h: nat, m: nat): nat
    requires m < n + h
  {
    if m < n then m + m / 8 + 1 else ColdLength(n) + 2 * (m - n) + 1
  }

  /** Nothing is lost, and each class keeps its order. */
  lemma DevicesInOrder(cold: seq<Device>, hot: seq<Device>, m: nat)
    requires m < |cold| + |hot|
    ensures var at := DeviceAt(|cold|, |hot|, m);
            && at < Total(|cold|, |hot|)
            && !Entry(cold, hot, at).Port? && Entry(cold, hot, at).device == (cold + hot)[m]
            && (m + 1 < |cold| + |hot| ==> at < DeviceAt(|cold|, |hot|, m + 1))
  {
    if m < |cold| {
      ColdIndex(m, m + m / 8 + 1);
      assert ColdLength(m + 1) <= ColdLength(|cold|);
    } else {
      assert (2 * (m - |cold|) + 1) / 2 == m - |cold|;
    }
  }

  /** Nothing is added or duplicated. */
  lemma OnlyThoseDevices(cold: seq<Device>, hot: seq<Device>, i: nat) returns (m: nat)
    requires i < Total(|cold|, |hot|) && !Entry(cold, hot, i).Port?
    ensures m < |cold| + |hot| && DeviceAt(|cold|, |hot|, m) == i
  {
    var c := ColdLength(|cold|);
    if i < c {
      m := i - i / 9 - 1;
      assert i == 9 * (i / 9) + i % 9 && m == 8 * (i / 9) + (i % 9 - 1);
      assert m / 8 == i / 9;
    } else {
      m := |cold| + (i - c) / 2;
      assert i - c == 2 * ((i - c) / 2) + 1;
    }
  }

  predicate HasDevice(cold: seq<Device>, hot: seq<Device>, q: nat) {
    exists i: nat :: i < Total(|cold|, |hot|) && !Entry(cold, hot, i).Port? && Entry(cold, hot, i).port == 8 + q
  }

  /** Some device sits behind root port 8 + q exactly when it is not one of the spare ones. */
  lemma SpareExactly(cold: seq<Device>, hot: seq<Device>, q: nat)
    requires q < PortCount(|cold|, |hot|)
    ensures HasDevice(cold, hot, q) <==> q < Ceil8(|cold|) + |hot|
  {
    if q < Ceil8(|cold|) {
      var i := 9 * q + 1;
      assert i / 9 == q && i % 9 == 1 && i < ColdLength(|cold|);
      assert !Entry(cold, hot, i).Port? && Entry(cold, hot, i).port == 8 + q;
    } else if q < Ceil8(|cold|) + |hot| {
      var i := ColdLength(|cold|) + 2 * (q - Ceil8(|cold|)) + 1;
      assert !Entry(cold, hot, i).Port? && Entry(cold, hot, i).port == 8 + q;
    }
  }

  /** All slots fit the 5-bit PCI device number exactly when ceil(n/8) + h <= 240. */
  lemma SlotsFitExactly(cold: seq<Device>, hot: seq<Device>)
    ensures (forall i: nat :: i < Total(|cold|, |hot|) && Entry(cold, hot, i).Port?
                              ==> Entry(cold, hot, i).port / 8 < 32)
            <==> Ceil8(|cold|) + |hot| <= 240
  {
    var last := PortCount(|cold|, |hot|) - 1;
    PortAtIsPort(cold, hot, last);
    var at := PortAt(|cold|, |hot|, last);
    assert Entry(cold, hot, at).Port? && Entry(cold, hot, at).port == 8 + last;
    forall i: nat | i < Total(|cold|, |hot|) ensures Entry(cold, hot, i).port <= 8 + last {
      PortRange(cold, hot, i);
    }
  }

  // ---------- the layout, written out ----------

  /** Boot device k: behind port 8 + k/8 at function k%8. */
  lemma BootDeviceIs(cold: seq<Device>, hot: seq<Device>, k: nat)
    requires k < |cold|
    ensures var r := RenderAll(Items(cold, hot));
            && k + k / 8 + 1 < |r|
            && r[k + k / 8 + 1]
               == Allocation(Plugged(cold[k]), "pcie_port_" + Dec(8 + k / 8), "00." + Dec(k % 8), k % 8 == 0)
  {
    DevicesInOrder(cold, hot, k);
    BootEntryIs(cold, hot, k);
    ItemsIndex(cold, hot, k + k / 8 + 1);
  }

  lemma BootEntryIs(cold: seq<Device>, hot: seq<Device>, k: nat)
    requires k < |cold| && k + k / 8 + 1 < Total(|cold|, |hot|)
    ensures Entry(cold, hot, k + k / 8 + 1) == Cold(cold[k], 8 + k / 8, k % 8)
  {
    ColdIndex(k, k + k / 8 + 1);
    assert ColdLength(k + 1) <= ColdLength(|cold|);
  }

  /** Hotplug device j: alone behind a port after those of the boot devices. */
  lemma HotplugDeviceIs(cold: seq<Device>, hot: seq<Device>, j: nat)
    requires j < |hot|
    ensures var r := RenderAll(Items(cold, hot));
            var at := |cold| + (|cold| + 7) / 8 + 2 * j + 1;
            && at < |r|
            && r[at] == Allocation(Plugged(hot[j]), "pcie_port_" + Dec(8 + (|cold| + 7) / 8 + j), "00.0", false)
  {
    HotEntryIs(8 + (|cold| + 7) / 8, hot, j);
    ItemsIndex(cold, hot, |cold| + (|cold| + 7) / 8 + 2 * j + 1);
  }

  lemma HotEntryIs(base: nat, hot: seq<Device>, j: nat)
    requires j < |hot|
    ensures HotEntry(base, hot, 2 * j + 1) == Hot(hot[j], base + j)
  {
    assert (2 * j + 1) / 2 == j;
  }

  /** Root port 8 + q, its chassis number, and where it sits on the root bus. */
  lemma RootPortIs(cold: seq<Device>, hot: seq<Device>, q: nat)
    requires q < (|cold| + 7) / 8 + |hot| + 8
    ensures Allocation(RootPort("pcie_port_" + Dec(8 + q), 8 + q), "pcie.0",
                       Hex((8 + q) / 8) + "." + Dec((8 + q) % 8), (8 + q) % 8 == 0)
            in RenderAll(Items(cold, hot))
  {
    PortAtIsPort(cold, hot, q);
    ItemsIndex(cold, hot, PortAt(|cold|, |hot|, q));
  }

  /** One port for every eight boot devices and for each hotplug device, and eight spare ones. */
  lemma LengthIs(cold: seq<Device>, hot: seq<Device>)
    ensures |RenderAll(Items(cold, hot))| == |cold| + (|cold| + 7) / 8 + 2 * |hot| + 8
  {
  }

  // ---------- adding a hotplug device ----------

  lemma {:induction false} FilterConcat(a: seq<Device>, b: seq<Device>, hotplug: bool)
    ensures Filter(a + b, hotplug) == Filter(a, hotplug) + Filter(b, hotplug)
  {
    if b == [] {
      assert a + b == a;
    } else {
      assert (a + b)[..|a + b| - 1] == a + b[..|b| - 1];
      FilterConcat(a, b[..|b| - 1], hotplug);
    }
  }

  /** Inserting a hotplug device anywhere moves no non-hotplug device and none of their
      ports, and keeps the order of the hotplug devices. */
  lemma InsertingHotplugMovesNothing(a: seq<Device>, d: Device, b: seq<Device>)
    requires d.hotplug
    ensures var was, now := a + b, a + [d] + b;
            var cold := Filter(was, false);
            && Filter(now, false) == cold && Filter(now, true) == Filter(a, true) + [d] + Filter(b, true)
            && Filter(was, true) == Filter(a, true) + Filter(b, true)
            && forall i :: 0 <= i < ColdLength(|cold|) ==>
                 Entry(cold, Filter(now, true), i) == Entry(cold, Filter(was, true), i)
  {
    FilterConcat(a, b, false);
    FilterConcat(a, b, true);
    assert [d][..0] == [];
    FilterConcat(a, [d], false);
    FilterConcat(a, [d], true);
    FilterConcat(a + [d], b, false);
    FilterConcat(a + [d], b, true);
  }
}

/** Run-time hot-plugging of network adapters: AttachNetworkAdapter and
    DetachNetworkAdapter of driver/driver.go against an abstract QEMU. Deleting a device
    is one step here, although the guest takes part in it. */
module PortOccupancy {
  import opened Text
  import opened PcieAllocator
  import PcieLayout

  // ---------- what query-pci shows ----------

  datatype PciDevice = PciDevice(vendor: nat, device: nat, qdevId: string, behind: nat)

  const ROOT_PORT_VENDOR := 0x1b36
  const ROOT_PORT_DEVICE := 0x000c

  predicate IsRootPort(d: PciDevice) {
    d.vendor == ROOT_PORT_VENDOR && d.device == ROOT_PORT_DEVICE
  }

  predicate IsEmptyPort(d: PciDevice) { IsRootPort(d) && d.behind == 0 }

  /** The nested loops of AttachNetworkAdapter: the last empty root port seen wins. */
  method FindEmptyBridge(buses: seq<seq<PciDevice>>) returns (r: Option<string>)
    ensures r.None? <==> forall b, i :: 0 <= b < |buses| && 0 <= i < |buses[b]| ==> !IsEmptyPort(buses[b][i])
    ensures r.Some? ==> exists b, i :: 0 <= b < |buses| && 0 <= i < |buses[b]| && IsEmptyPort(buses[b][i])
                          && r.value == buses[b][i].qdevId && LastEmpty(buses, b, i)
    ensures r.None? <==> forall b, i :: 0 <= b < |buses| && 0 <= i < |buses[b]| ==>
                           !(buses[b][i].vendor == 0x1b36 && buses[b][i].device == 0xc && buses[b][i].behind == 0)
    ensures r.Some? ==> exists b, i :: 0 <= b < |buses| && 0 <= i < |buses[b]| && r.value == buses[b][i].qdevId
                          && buses[b][i].vendor == 0x1b36 && buses[b][i].device == 0xc && buses[b][i].behind == 0
                          && forall c, k :: 0 <= c < |buses| && 0 <= k < |buses[c]| && (c > b || (c == b && k > i)) ==>
                               !(buses[c][k].vendor == 0x1b36 && buses[c][k].device == 0xc && buses[c][k].behind == 0)
  {
    r := None;
    ghost var rb, ri := 0, 0;
    for b := 0 to |buses|
      invariant r.None? ==> forall c, k :: 0 <= c < b && 0 <= k < |buses[c]| ==> !IsEmptyPort(buses[c][k])
      invariant r.Some? ==> 0 <= rb < b && 0 <= ri < |buses[rb]| && IsEmptyPort(buses[rb][ri])
                            && r.value == buses[rb][ri].qdevId
      invariant r.Some? ==> forall c, k :: 0 <= c < b && 0 <= k < |buses[c]| && Later(c, k, rb, ri)
                                           ==> !IsEmptyPort(buses[c][k])
    {
      var bus := buses[b];
      for i := 0 to |bus|
        invariant r.None? ==> forall c, k :: 0 <= c < b && 0 <= k < |buses[c]| ==> !IsEmptyPort(buses[c][k])
        invariant r.None? ==> forall k :: 0 <= k < i ==> !IsEmptyPort(bus[k])
        invariant r.Some? ==> 0 <= rb <= b && 0 <= ri < |buses[rb]| && (rb == b ==> ri < i)
                              && IsEmptyPort(buses[rb][ri]) && r.value == buses[rb][ri].qdevId
        invariant r.Some? ==> forall c, k :: 0 <= c < b && 0 <= k < |buses[c]| && Later(c, k, rb, ri)
                                             ==> !IsEmptyPort(buses[c][k])
        invariant r.Some? ==> forall k :: 0 <= k < i && Later(b, k, rb, ri) ==> !IsEmptyPort(bus[k])
      {
        var pciDevice := bus[i];
        if pciDevice.vendor != ROOT_PORT_VENDOR || pciDevice.device != ROOT_PORT_DEVICE {
          continue;
        }
        if pciDevice.behind > 0 {
          continue;
        }
        r := Some(pciDevice.qdevId);
        rb, ri := b, i;
      }
    }
  }

  predicate Later(c: nat, k: nat, b: nat, i: nat) { c > b || (c == b && k > i) }

  predicate LastEmpty(buses: seq<seq<PciDevice>>, b: nat, i: nat) {
    forall c, k :: 0 <= c < |buses| && 0 <= k < |buses[c]| && Later(c, k, b, i) ==> !IsEmptyPort(buses[c][k])
  }

  // ---------- the abstract QEMU ----------

  /** A device of the machine, or the adapter of the given name (its id is `tap-` and the
      name). */
  datatype Occupant = Machine(id: string) | Adapter(name: string)

  /** What is behind every root port, and the names that have a network back end (its id
      is `tap-`, the name and `-netdev`). */
  datatype Vm = Vm(ports: map<string, seq<Occupant>>, netdevs: set<string>)

  predicate Present(vm: Vm, name: string) { exists p :: p in vm.ports && Adapter(name) in vm.ports[p] }

  function EmptyPorts(vm: Vm): set<string> { set p | p in vm.ports && vm.ports[p] == [] }

  /** query-pci lists exactly the root ports, among other devices. */
  ghost predicate Shows(vm: Vm, buses: seq<seq<PciDevice>>) {
    && (forall b, i :: 0 <= b < |buses| && 0 <= i < |buses[b]| && IsRootPort(buses[b][i]) ==>
          buses[b][i].qdevId in vm.ports && buses[b][i].behind == |vm.ports[buses[b][i].qdevId]|)
    && (forall p :: p in vm.ports ==>
          exists b, i :: 0 <= b < |buses| && 0 <= i < |buses[b]| && IsRootPort(buses[b][i]) && buses[b][i].qdevId == p)
  }

  /** Which call fails for reasons of its own. */
  datatype Fault = NoFault | Earlier | AtNetdev | AtDevice

  datatype Outcome = Attached | RestartRequired | AttachFailed

  /** The net effect of one attach: netdev_add, then device_add at the chosen port. Both
      refuse an id that exists. */
  function Attach(vm: Vm, name: string, port: Option<string>, fault: Fault): (Vm, Outcome)
    requires port.Some? ==> port.value in vm.ports
  {
    if fault == Earlier then (vm, AttachFailed)
    else if port.None? then (vm, RestartRequired)
    else if fault == AtNetdev || name in vm.netdevs then (vm, AttachFailed)
    else
      var vm1 := vm.(netdevs := vm.netdevs + {name});
      if fault == AtDevice || Present(vm, name) then (vm1, AttachFailed)
      else (vm1.(ports := vm.ports[port.value := vm.ports[port.value] + [Adapter(name)]]), Attached)
  }

  /** device_del and then netdev_del; "not found" counts as success for both. */
  function Detach(vm: Vm, name: string, fault: Fault): (Vm, bool) {
    if fault == Earlier || fault == AtDevice then (vm, false)
    else
      var vm1 := vm.(ports := map p | p in vm.ports :: Without(vm.ports[p], Adapter(name)));
      if fault == AtNetdev then (vm1, false)
      else (vm1.(netdevs := vm.netdevs - {name}), true)
  }

  function Without(s: seq<Occupant>, x: Occupant): seq<Occupant> {
    if s == [] then [] else (if s[0] == x then [] else [s[0]]) + Without(s[1..], x)
  }

  // ---------- runs ----------

  datatype Call =
    | DoAttach(name: string, buses: seq<seq<PciDevice>>, port: Option<string>, fault: Fault)
    | DoDetach(name: string, fault: Fault)

  /** The port an attach uses is what FindEmptyBridge returns for what query-pci shows. */
  ghost predicate Chosen(buses: seq<seq<PciDevice>>, port: Option<string>) {
    if port.None? then
      forall b, i :: 0 <= b < |buses| && 0 <= i < |buses[b]| ==> !IsEmptyPort(buses[b][i])
    else
      exists b, i :: 0 <= b < |buses| && 0 <= i < |buses[b]| && IsEmptyPort(buses[b][i])
                     && port.value == buses[b][i].qdevId && LastEmpty(buses, b, i)
  }

  ghost predicate Faithful(vm: Vm, c: Call) {
    c.DoAttach? ==> Shows(vm, c.buses) && Chosen(c.buses, c.port)
  }

  lemma ChosenIsEmpty(vm: Vm, c: Call)
    requires c.DoAttach? && Faithful(vm, c)
    ensures c.port.Some? ==> c.port.value in EmptyPorts(vm)
    ensures c.port.None? <==> EmptyPorts(vm) == {}
  {
    if EmptyPorts(vm) != {} {
      var p :| p in EmptyPorts(vm);
      var b, i :| 0 <= b < |c.buses| && 0 <= i < |c.buses[b]| && IsRootPort(c.buses[b][i]) && c.buses[b][i].qdevId == p;
      assert IsEmptyPort(c.buses[b][i]);
    }
  }

  ghost function After(vm: Vm, c: Call): Vm
    requires Faithful(vm, c)
  {
    match c
    case DoAttach(name, buses, port, fault) => ChosenIsEmpty(vm, c); Attach(vm, name, port, fault).0
    case DoDetach(name, fault) => Detach(vm, name, fault).0
  }

  ghost predicate FaithfulRun(vm: Vm, t: seq<Call>)
    decreases t
  {
    t == [] || (Faithful(vm, t[0]) && FaithfulRun(After(vm, t[0]), t[1..]))
  }

  ghost function Run(vm: Vm, t: seq<Call>): Vm
    requires FaithfulRun(vm, t)
    decreases t
  {
    if t == [] then vm else Run(After(vm, t[0]), t[1..])
  }

  /** A root port with an adapter holds nothing else, and no adapter is behind two ports.
      The ports of the machine's own devices may hold up to eight functions. */
  ghost predicate Inv(vm: Vm) {
    && (forall p, name :: p in vm.ports && Adapter(name) in vm.ports[p] ==> vm.ports[p] == [Adapter(name)])
    && (forall p, q, name :: p in vm.ports && q in vm.ports && Adapter(name) in vm.ports[p] ==>
          (Adapter(name) in vm.ports[q] ==> p == q))
  }

  lemma {:induction false} WithoutAbsent(s: seq<Occupant>, x: Occupant)
    requires x !in s
    ensures Without(s, x) == s
  {
    if s != [] {
      WithoutAbsent(s[1..], x);
      assert s == [s[0]] + s[1..];
    }
  }

  /** Deleting an adapter empties its port and touches no other. */
  lemma WithoutAdapter(vm: Vm, name: string, p: string)
    requires Inv(vm) && p in vm.ports
    ensures Without(vm.ports[p], Adapter(name))
            == if Adapter(name) in vm.ports[p] then [] else vm.ports[p]
    ensures Adapter(name) in vm.ports[p] ==> vm.ports[p] == [Adapter(name)]
  {
    var x := Adapter(name);
    if x in vm.ports[p] {
      assert [x][1..] == [];
    } else {
      WithoutAbsent(vm.ports[p], x);
    }
  }

  lemma InvStep(vm: Vm, c: Call)
    requires Inv(vm) && Faithful(vm, c)
    ensures Inv(After(vm, c)) && After(vm, c).ports.Keys == vm.ports.Keys
  {
    match c
    case DoAttach(name, buses, port, fault) =>
      ChosenIsEmpty(vm, c);
      InvAttach(vm, name, port, fault);
    case DoDetach(name, fault) => InvDetach(vm, name, fault);
  }

  lemma InvAttach(vm: Vm, name: string, port: Option<string>, fault: Fault)
    requires Inv(vm) && (port.Some? ==> port.value in EmptyPorts(vm))
    ensures Inv(Attach(vm, name, port, fault).0)
    ensures Attach(vm, name, port, fault).0.ports.Keys == vm.ports.Keys
  {
    assert forall p :: p in vm.ports && Adapter(name) in vm.ports[p] ==> Present(vm, name);
  }

  lemma InvDetach(vm: Vm, name: string, fault: Fault)
    requires Inv(vm)
    ensures Inv(Detach(vm, name, fault).0)
    ensures Detach(vm, name, fault).0.ports.Keys == vm.ports.Keys
  {
    forall p | p in vm.ports
      ensures Without(vm.ports[p], Adapter(name)) == if Adapter(name) in vm.ports[p] then [] else vm.ports[p]
    {
      WithoutAdapter(vm, name, p);
    }
  }

  /** Over all runs: a root port never receives an adapter while occupied. */
  lemma {:induction false} NeverOccupiedTwice(vm: Vm, t: seq<Call>)
    requires Inv(vm) && FaithfulRun(vm, t)
    ensures Inv(Run(vm, t)) && Run(vm, t).ports.Keys == vm.ports.Keys
    decreases t
  {
    if t != [] {
      InvStep(vm, t[0]);
      NeverOccupiedTwice(After(vm, t[0]), t[1..]);
    }
  }

  // ---------- counting free ports ----------

  predicate Succeeds(vm: Vm, c: Call)
    requires c.DoAttach? && (c.port.Some? ==> c.port.value in vm.ports)
  {
    Attach(vm, c.name, c.port, c.fault).1 == Attached
  }

  /** 1 for a detach that finds its adapter and gets it deleted, whatever it then returns. */
  ghost function Freed(vm: Vm, name: string, fault: Fault): nat {
    if Present(vm, name) && fault != Earlier && fault != AtDevice then 1 else 0
  }

  ghost function Taken(vm: Vm, c: Call): int
    requires Faithful(vm, c)
  {
    match c
    case DoAttach(_, _, _, _) => ChosenIsEmpty(vm, c); if Succeeds(vm, c) then 1 else 0
    case DoDetach(name, fault) => 0 - Freed(vm, name, fault)
  }

  /** An attach takes one free port iff it succeeds; a detach gives one back iff it deletes
      an adapter. */
  lemma FreePortsExactly(vm: Vm, c: Call)
    requires Inv(vm) && Faithful(vm, c)
    ensures |EmptyPorts(After(vm, c))| == |EmptyPorts(vm)| - Taken(vm, c)
  {
    match c
    case DoAttach(name, buses, port, fault) =>
      ChosenIsEmpty(vm, c);
      AttachTakes(vm, name, port, fault);
    case DoDetach(name, fault) => DetachFrees(vm, name, fault);
  }

  lemma AttachTakes(vm: Vm, name: string, port: Option<string>, fault: Fault)
    requires port.Some? ==> port.value in EmptyPorts(vm)
    ensures var r := Attach(vm, name, port, fault);
            |EmptyPorts(r.0)| == |EmptyPorts(vm)| - if r.1 == Attached then 1 else 0
  {
    var r := Attach(vm, name, port, fault);
    if r.1 == Attached {
      assert EmptyPorts(r.0) == EmptyPorts(vm) - {port.value};
    } else {
      assert EmptyPorts(r.0) == EmptyPorts(vm);
    }
  }

  lemma DetachFrees(vm: Vm, name: string, fault: Fault)
    requires Inv(vm)
    ensures |EmptyPorts(Detach(vm, name, fault).0)| == |EmptyPorts(vm)| + Freed(vm, name, fault)
  {
    var vm' := Detach(vm, name, fault).0;
    var x := Adapter(name);
    forall p | p in vm.ports
      ensures Without(vm.ports[p], x) == if x in vm.ports[p] then [] else vm.ports[p]
    {
      WithoutAdapter(vm, name, p);
    }
    if Freed(vm, name, fault) == 1 {
      var q :| q in vm.ports && x in vm.ports[q];
      assert forall p :: p in vm.ports && p != q ==> x !in vm.ports[p];
      OneMoreEmpty(vm, vm', q);
    } else {
      assert EmptyPorts(vm') == EmptyPorts(vm);
    }
  }

  lemma OneMoreEmpty(vm: Vm, vm': Vm, q: string)
    requires vm.ports.Keys == vm'.ports.Keys && q in vm.ports && vm.ports[q] != [] && vm'.ports[q] == []
    requires forall p :: p in vm.ports && p != q ==> vm'.ports[p] == vm.ports[p]
    ensures |EmptyPorts(vm')| == |EmptyPorts(vm)| + 1
  {
    assert EmptyPorts(vm') == EmptyPorts(vm) + {q};
  }

  /** Ports taken by a run minus ports given back. */
  ghost function Balance(vm: Vm, t: seq<Call>): int
    requires FaithfulRun(vm, t)
    decreases t
  {
    if t == [] then 0 else Taken(vm, t[0]) + Balance(After(vm, t[0]), t[1..])
  }

  /** Over whole runs, no free port is lost or invented. */
  lemma {:induction false} FreePortsOverRuns(vm: Vm, t: seq<Call>)
    requires Inv(vm) && FaithfulRun(vm, t)
    ensures |EmptyPorts(Run(vm, t))| == |EmptyPorts(vm)| - Balance(vm, t)
    decreases t
  {
    if t != [] {
      FreePortsExactly(vm, t[0]);
      InvStep(vm, t[0]);
      FreePortsOverRuns(After(vm, t[0]), t[1..]);
    }
  }

  /** The restart-required error of an attach that gets as far as choosing a port. */
  lemma RestartRequiredExactly(vm: Vm, c: Call)
    requires Inv(vm) && c.DoAttach? && Faithful(vm, c)
    ensures c.port.Some? ==> c.port.value in vm.ports
    ensures Attach(vm, c.name, c.port, c.fault).1 == RestartRequired
            <==> c.fault != Earlier && EmptyPorts(vm) == {}
  {
    ChosenIsEmpty(vm, c);
  }

  // ---------- a back end left behind ----------

  /** If device_add fails after netdev_add, the back end stays, and every further attach
      of that name fails until a detach removes it, whatever else happens meanwhile. */
  lemma {:induction false} LeftoverBlocksAttach(vm: Vm, name: string, t: seq<Call>, port: Option<string>, fault: Fault)
    requires name in vm.netdevs && FaithfulRun(vm, t)
    requires forall c :: c in t && c.DoDetach? ==> c.name != name
    requires port.Some? ==> port.value in Run(vm, t).ports
    ensures Attach(Run(vm, t), name, port, fault).1 != Attached
    decreases t
  {
    if t != [] {
      assert t[0] in t && forall c :: c in t[1..] ==> c in t;
      LeftoverBlocksAttach(After(vm, t[0]), name, t[1..], port, fault);
    }
  }

  lemma DetachUnblocks(vm: Vm, name: string)
    requires Inv(vm)
    ensures var vm' := Detach(vm, name, NoFault).0;
            name !in vm'.netdevs && !Present(vm', name)
  {
    forall p | p in vm.ports ensures Adapter(name) !in Without(vm.ports[p], Adapter(name)) {
      WithoutAdapter(vm, name, p);
    }
  }

  /** What an attach does, failure by failure: the back end first, and then the adapter at the
      port that was chosen. */
  lemma AttachIs(vm: Vm, name: string, port: Option<string>, fault: Fault)
    requires port.Some? ==> port.value in vm.ports
    ensures var (u, r) := Attach(vm, name, port, fault);
            && (fault == Earlier ==> r == AttachFailed && u == vm)
            && (fault != Earlier && port == None ==> r == RestartRequired && u == vm)
            && (fault != Earlier && port.Some? && (fault == AtNetdev || name in vm.netdevs) ==>
                  r == AttachFailed && u == vm)
            && (port.Some? && fault != Earlier && fault != AtNetdev && name !in vm.netdevs ==>
                  && u.netdevs == vm.netdevs + {name}
                  && (r == Attached <==> fault == NoFault && !Present(vm, name))
                  && (r != Attached ==> r == AttachFailed && u.ports == vm.ports)
                  && (r == Attached ==>
                        u.ports == vm.ports[port.value := vm.ports[port.value] + [Adapter(name)]]))
  {
  }

  /** What a detach answers, and what nil means: neither the adapter nor its back end is left. */
  lemma DetachAnswers(vm: Vm, name: string, fault: Fault)
    ensures Detach(vm, name, fault).1 <==> fault == NoFault
    ensures Detach(vm, name, fault).1 ==> name !in Detach(vm, name, fault).0.netdevs
    ensures Detach(vm, name, fault).1 ==>
              forall p :: p in vm.ports ==>
                p in Detach(vm, name, fault).0.ports && Adapter(name) !in Detach(vm, name, fault).0.ports[p]
    ensures fault == Earlier || fault == AtDevice ==> Detach(vm, name, fault).0 == vm
    ensures fault == AtNetdev ==> Detach(vm, name, fault).0.netdevs == vm.netdevs
  {
    forall p | p in vm.ports ensures Adapter(name) !in Without(vm.ports[p], Adapter(name)) {
      WithoutIt(vm.ports[p], Adapter(name));
    }
  }

  lemma {:induction false} WithoutIt(s: seq<Occupant>, x: Occupant)
    ensures forall y :: y in Without(s, x) <==> y in s && y != x
  {
    if s != [] {
      WithoutIt(s[1..], x);
      assert s == [s[0]] + s[1..];
    }
  }

  // ---------- the driver's two methods ----------

  class Machine {
    var ports: map<string, seq<Occupant>>
    var netdevs: set<string>

    ghost function View(): Vm
      reads this
    {
      Vm(ports, netdevs)
    }

    method AttachNetworkAdapter(name: string, buses: seq<seq<PciDevice>>, fault: Fault)
      returns (r: Outcome, ghost port: Option<string>)
      requires Shows(View(), buses)
      modifies this
      ensures fault != Earlier ==> Chosen(buses, port)
      ensures port.Some? ==> port.value in EmptyPorts(old(View()))
      ensures (View(), r) == Attach(old(View()), name, port, fault)
    {
      port := None;
      if fault == Earlier {
        return AttachFailed, None;
      }
      var emptyBridge := FindEmptyBridge(buses);
      port := emptyBridge;
      ChosenIsEmpty(View(), DoAttach(name, buses, port, fault));
      if emptyBridge.None? {
        return RestartRequired, port;
      }
      if fault == AtNetdev || name in netdevs {
        return AttachFailed, port;
      }
      netdevs := netdevs + {name};
      if fault == AtDevice || exists p :: p in ports && Adapter(name) in ports[p] {
        return AttachFailed, port;
      }
      ports := ports[emptyBridge.value := ports[emptyBridge.value] + [Adapter(name)]];
      return Attached, port;
    }

    method DetachNetworkAdapter(name: string, fault: Fault) returns (ok: bool)
      modifies this
      ensures (View(), ok) == Detach(old(View()), name, fault)
    {
      if fault == Earlier || fault == AtDevice {
        return false;
      }
      ports := map p | p in ports :: Without(ports[p], Adapter(name));
      if fault == AtNetdev {
        return false;
      }
      netdevs := netdevs - {name};
      return true;
    }
  }

  // ---------- after boot ----------

  /** The root ports of the allocation are there, and a port is empty exactly when the
      allocation puts no device behind it. */
  ghost predicate AtBoot(vm: Vm, cold: seq<Device>, hot: seq<Device>) {
    && vm.ports.Keys == Names(8, PcieLayout.PortCount(|cold|, |hot|))
    && forall q: nat :: q < PcieLayout.PortCount(|cold|, |hot|) && NameOf(8, q) in vm.ports ==>
         (vm.ports[NameOf(8, q)] != [] <==> PcieLayout.HasDevice(cold, hot, q))
  }

  function NameOf(from: nat, t: nat): string { PortName(from + t) }

  function Names(from: nat, len: nat): set<string> {
    if len == 0 then {} else Names(from, len - 1) + {NameOf(from, len - 1)}
  }

  lemma {:induction false} NamesAre(from: nat, len: nat, t: nat)
    ensures NameOf(from, t) in Names(from, len) <==> t < len
    ensures |Names(from, len)| == len
  {
    if len > 0 {
      NamesAre(from, len - 1, t);
      NamesAre(from, len - 1, len - 1);
      if NameOf(from, t) == NameOf(from, len - 1) {
        PcieLayout.PortNameInjective(from + t, from + len - 1);
      }
    }
  }

  lemma {:induction false} NamesSplit(from: nat, m: nat, n: nat)
    ensures Names(from, m + n) == Names(from, m) + Names(from + m, n)
  {
    if n > 0 {
      NamesSplit(from, m, n - 1);
      assert NameOf(from, m + n - 1) == NameOf(from + m, n - 1);
    }
  }

  lemma {:induction false} NamesEmpty(vm: Vm, cold: seq<Device>, hot: seq<Device>, m: nat, n: nat, spare: bool)
    requires AtBoot(vm, cold, hot) && m + n <= PcieLayout.PortCount(|cold|, |hot|)
    requires if spare then m == Ceil8(|cold|) + |hot| else m + n <= Ceil8(|cold|) + |hot|
    ensures forall p :: p in Names(8 + m, n) ==> p in vm.ports && (vm.ports[p] == [] <==> spare)
  {
    if n > 0 {
      NamesEmpty(vm, cold, hot, m, n - 1, spare);
      var q := m + n - 1;
      assert NameOf(8 + m, n - 1) == NameOf(8, q);
      NamesAre(8, PcieLayout.PortCount(|cold|, |hot|), q);
      PcieLayout.SpareExactly(cold, hot, q);
    }
  }

  /** After boot exactly SPARE ports are free, so exactly that many more attaches than
      effective detaches can succeed before the restart-required error. */
  lemma SpareAfterBoot(vm: Vm, cold: seq<Device>, hot: seq<Device>, t: seq<Call>)
    requires AtBoot(vm, cold, hot) && Inv(vm) && FaithfulRun(vm, t)
    ensures |EmptyPorts(vm)| == SPARE
    ensures EmptyPorts(Run(vm, t)) == {} <==> Balance(vm, t) == SPARE
  {
    FreeAtBoot(vm, cold, hot);
    FreePortsOverRuns(vm, t);
  }

  lemma FreeAtBoot(vm: Vm, cold: seq<Device>, hot: seq<Device>)
    requires AtBoot(vm, cold, hot)
    ensures |EmptyPorts(vm)| == SPARE
  {
    var first := Ceil8(|cold|) + |hot|;
    NamesSplit(8, first, SPARE);
    NamesEmpty(vm, cold, hot, 0, first, false);
    NamesEmpty(vm, cold, hot, first, SPARE, true);
    FreeAre(vm, Names(8, first), Names(8 + first, SPARE));
    NamesAre(8 + first, SPARE, 0);
  }

  lemma FreeAre(vm: Vm, used: set<string>, free: set<string>)
    requires vm.ports.Keys == used + free
    requires forall p :: p in used ==> p in vm.ports && vm.ports[p] != []
    requires forall p :: p in free ==> p in vm.ports && vm.ports[p] == []
    ensures EmptyPorts(vm) == free
  {
  }
}

/** AttachNetworkAdapter and DetachNetworkAdapter of driver/driver.go take no lock: any
    number of attaches that overlap each other and the two halves of detaches. QEMU refuses a
    device at a port that is occupied. `PortOccupancy` is about one call at a time. */
module PortOverlap {
  import opened Text
  import opened PortOccupancy

  datatype Pc =
    | Called(name: string)
    | Picked(name: string, port: string)   // past query-pci
    | Backed(name: string, port: string)   // past netdev_add
    | Returned(name: string, r: Outcome)

  datatype State = State(vm: Vm, calls: seq<Pc>)

  /** `ok` is whether a monitor call gets through. The query of an attach finds a port or
      none. */
  datatype Step =
    | Begin(name: string)
    | Query(i: nat, ok: bool, buses: seq<seq<PciDevice>>, port: Option<string>)
    | AddNetdev(i: nat, ok: bool)
    | AddDevice(i: nat, ok: bool)
    | DeleteDevice(name: string)
    | DeleteNetdev(name: string)

  predicate OfCall(a: Step) { a.Query? || a.AddNetdev? || a.AddDevice? }

  ghost predicate Enabled(s: State, a: Step) {
    && (OfCall(a) ==> a.i < |s.calls|)
    && match a
       case Query(i, _, buses, port) => s.calls[i].Called? && Shows(s.vm, buses) && Chosen(buses, port)
       case AddNetdev(i, _) => s.calls[i].Picked?
       case AddDevice(i, _) => s.calls[i].Backed?
       case _ => true
  }

  predicate Free(vm: Vm, port: string) { port in vm.ports && vm.ports[port] == [] }

  /** device_add: the port is free, the id is new, and the back end is there. */
  predicate Accepts(vm: Vm, name: string, port: string) {
    Free(vm, port) && !Present(vm, name) && name in vm.netdevs
  }

  function Plug(vm: Vm, name: string, port: string): Vm
    requires port in vm.ports
  {
    vm.(ports := vm.ports[port := vm.ports[port] + [Adapter(name)]])
  }

  function Unplugged(vm: Vm, name: string): Vm {
    vm.(ports := map p | p in vm.ports :: Without(vm.ports[p], Adapter(name)))
  }

  ghost function Apply(s: State, a: Step): State
    requires Enabled(s, a)
  {
    match a
    case Begin(name) => s.(calls := s.calls + [Called(name)])
    case Query(i, ok, _, port) =>
      var name := s.calls[i].name;
      s.(calls := s.calls[i := if !ok then Returned(name, AttachFailed)
                               else if port.None? then Returned(name, RestartRequired)
                               else Picked(name, port.value)])
    case AddNetdev(i, ok) =>
      var pc := s.calls[i];
      if ok && pc.name !in s.vm.netdevs then
        State(s.vm.(netdevs := s.vm.netdevs + {pc.name}), s.calls[i := Backed(pc.name, pc.port)])
      else s.(calls := s.calls[i := Returned(pc.name, AttachFailed)])
    case AddDevice(i, ok) =>
      var pc := s.calls[i];
      if ok && Accepts(s.vm, pc.name, pc.port) then
        State(Plug(s.vm, pc.name, pc.port), s.calls[i := Returned(pc.name, Attached)])
      else s.(calls := s.calls[i := Returned(pc.name, AttachFailed)])
    case DeleteDevice(name) => s.(vm := Unplugged(s.vm, name))
    case DeleteNetdev(name) => s.(vm := s.vm.(netdevs := s.vm.netdevs - {name}))
  }

  ghost predicate CanRun(s: State, t: seq<Step>)
    decreases t
  {
    t == [] || (Enabled(s, t[0]) && CanRun(Apply(s, t[0]), t[1..]))
  }

  ghost function Exec(s: State, t: seq<Step>): State
    requires CanRun(s, t)
    decreases t
  {
    if t == [] then s else Exec(Apply(s, t[0]), t[1..])
  }

  // ---------- never two behind a port ----------

  lemma PlugKeeps(vm: Vm, name: string, port: string)
    requires Inv(vm) && Accepts(vm, name, port)
    ensures Inv(Plug(vm, name, port)) && Plug(vm, name, port).ports.Keys == vm.ports.Keys
  {
    assert forall p :: p in vm.ports && Adapter(name) in vm.ports[p] ==> Present(vm, name);
  }

  lemma UnplugKeeps(vm: Vm, name: string)
    requires Inv(vm)
    ensures Inv(Unplugged(vm, name)) && Unplugged(vm, name).ports.Keys == vm.ports.Keys
    ensures forall p :: p in vm.ports && Adapter(name) !in vm.ports[p] ==> Unplugged(vm, name).ports[p] == vm.ports[p]
    ensures !Present(Unplugged(vm, name), name)
  {
    forall p | p in vm.ports
      ensures Without(vm.ports[p], Adapter(name)) == if Adapter(name) in vm.ports[p] then [] else vm.ports[p]
    {
      WithoutAdapter(vm, name, p);
    }
  }

  lemma OverlapStep(s: State, a: Step)
    requires Inv(s.vm) && Enabled(s, a)
    ensures Inv(Apply(s, a).vm) && Apply(s, a).vm.ports.Keys == s.vm.ports.Keys
  {
    if a.AddDevice? && Accepts(s.vm, s.calls[a.i].name, s.calls[a.i].port) {
      PlugKeeps(s.vm, s.calls[a.i].name, s.calls[a.i].port);
    }
    if a.DeleteDevice? {
      UnplugKeeps(s.vm, a.name);
    }
  }

  /** However attaches and detaches overlap, no port holds an adapter and something else, and
      no adapter is behind two ports. */
  lemma {:induction false} NeverTwoBehindAPort(s: State, t: seq<Step>)
    requires Inv(s.vm) && CanRun(s, t)
    ensures Inv(Exec(s, t).vm) && Exec(s, t).vm.ports.Keys == s.vm.ports.Keys
    decreases t
  {
    if t != [] {
      OverlapStep(s, t[0]);
      NeverTwoBehindAPort(Apply(s, t[0]), t[1..]);
    }
  }

  // ---------- the same port ----------

  /** What query-pci shows determines the port. */
  lemma ChosenIsUnique(buses: seq<seq<PciDevice>>, p: Option<string>, q: Option<string>)
    requires Chosen(buses, p) && Chosen(buses, q)
    ensures p == q
  {
    if p.Some? && q.Some? {
      var b, i :| 0 <= b < |buses| && 0 <= i < |buses[b]| && IsEmptyPort(buses[b][i])
                  && p.value == buses[b][i].qdevId && LastEmpty(buses, b, i);
      var c, k :| 0 <= c < |buses| && 0 <= k < |buses[c]| && IsEmptyPort(buses[c][k])
                  && q.value == buses[c][k].qdevId && LastEmpty(buses, c, k);
      assert !Later(c, k, b, i) && !Later(b, i, c, k);
    }
  }

  predicate For(pc: Pc, port: string) { (pc.Picked? || pc.Backed?) && pc.port == port }

  predicate Won(pc: Pc) { pc.Returned? && pc.r == Attached }

  /** Two calls for the same port: not both have attached, and if one has, the port is taken. */
  predicate Rivals(s: State, i: nat, j: nat, port: string) {
    && i < |s.calls| && j < |s.calls| && i != j
    && (s.calls[i].Returned? || For(s.calls[i], port)) && (s.calls[j].Returned? || For(s.calls[j], port))
    && !(Won(s.calls[i]) && Won(s.calls[j]))
    && (Won(s.calls[i]) || Won(s.calls[j]) ==> !Free(s.vm, port))
  }

  lemma RivalsStep(s: State, a: Step, i: nat, j: nat, port: string)
    requires Enabled(s, a) && !a.DeleteDevice? && Rivals(s, i, j, port)
    ensures Rivals(Apply(s, a), i, j, port)
  {
  }

  /** Of two attaches that have chosen the same port at most one succeeds, as long as no
      device is deleted. */
  lemma {:induction false} SamePortOneWins(s: State, t: seq<Step>, i: nat, j: nat, port: string)
    requires CanRun(s, t) && Rivals(s, i, j, port) && forall a :: a in t ==> !a.DeleteDevice?
    ensures Rivals(Exec(s, t), i, j, port)
    decreases t
  {
    if t != [] {
      assert t[0] in t && forall a :: a in t[1..] ==> a in t;
      RivalsStep(s, t[0], i, j, port);
      SamePortOneWins(Apply(s, t[0]), t[1..], i, j, port);
    }
  }

  /** Two attaches that are shown the same buses, whatever the number of free ports, never
      both succeed unless a device is deleted in between. */
  lemma BothQueryFirst(s: State, i: nat, j: nat, buses: seq<seq<PciDevice>>, p: Option<string>, q: Option<string>,
                       t: seq<Step>)
    requires i != j && CanRun(s, [Query(i, true, buses, p)] + ([Query(j, true, buses, q)] + t))
    requires forall a :: a in t ==> !a.DeleteDevice?
    ensures var u := Exec(s, [Query(i, true, buses, p)] + ([Query(j, true, buses, q)] + t));
            i < |u.calls| && j < |u.calls| && !(Won(u.calls[i]) && Won(u.calls[j]))
  {
    var a, b := Query(i, true, buses, p), Query(j, true, buses, q);
    assert ([a] + ([b] + t))[1..] == [b] + t && ([b] + t)[1..] == t;
    ChosenIsUnique(buses, p, q);
    var s2 := Apply(Apply(s, a), b);
    var port := if p.Some? then p.value else "";
    assert Rivals(s2, i, j, port);
    SamePortOneWins(s2, t, i, j, port);
  }

  // ---------- when an attach loses ----------

  /** Only call `i` is about `name`. */
  predicate Only(s: State, i: nat, name: string) {
    && i < |s.calls| && (s.calls[i].Picked? || s.calls[i].Backed?) && s.calls[i].name == name
    && (forall j :: 0 <= j < |s.calls| && j != i ==> s.calls[j].Returned? || s.calls[j].name != name)
    && !Present(s.vm, name) && (s.calls[i].Backed? ==> name in s.vm.netdevs)
  }

  predicate About(a: Step, name: string) { (a.Begin? || a.DeleteDevice? || a.DeleteNetdev?) && a.name == name }

  lemma PresentAfterPlug(vm: Vm, other: string, port: string, name: string)
    requires port in vm.ports && other != name
    ensures Present(Plug(vm, other, port), name) ==> Present(vm, name)
  {
  }

  lemma OnlyStep(s: State, a: Step, i: nat, name: string)
    requires Inv(s.vm) && Enabled(s, a) && Only(s, i, name) && !About(a, name)
    ensures i < |Apply(s, a).calls|
    ensures Only(Apply(s, a), i, name) || Apply(s, a).calls[i].Returned?
  {
    if a.AddDevice? && a.i != i && Accepts(s.vm, s.calls[a.i].name, s.calls[a.i].port) {
      PresentAfterPlug(s.vm, s.calls[a.i].name, s.calls[a.i].port, name);
    }
    if a.DeleteDevice? {
      UnplugOther(s.vm, a.name, name);
    }
  }

  lemma UnplugOther(vm: Vm, other: string, name: string)
    requires Inv(vm)
    ensures Present(Unplugged(vm, other), name) ==> Present(vm, name)
  {
    UnplugKeeps(vm, other);
    forall p | p in vm.ports
      ensures Without(vm.ports[p], Adapter(other)) == if Adapter(other) in vm.ports[p] then [] else vm.ports[p]
    {
      WithoutAdapter(vm, other, p);
    }
  }

  lemma {:induction false} OnlyRun(s: State, t: seq<Step>, i: nat, name: string)
    requires Inv(s.vm) && CanRun(s, t) && i < |s.calls| && (Only(s, i, name) || s.calls[i].Returned?)
    requires forall a :: a in t ==> !About(a, name)
    ensures i < |Exec(s, t).calls| && (Only(Exec(s, t), i, name) || Exec(s, t).calls[i].Returned?)
    decreases t
  {
    if t != [] {
      assert t[0] in t && forall a :: a in t[1..] ==> a in t;
      OverlapStep(s, t[0]);
      if Only(s, i, name) {
        OnlyStep(s, t[0], i, name);
      }
      OnlyRun(Apply(s, t[0]), t[1..], i, name);
    }
  }

  /** An attach of a name that nobody else uses meanwhile, whose last device_add would get
      through, fails exactly when the port it chose has been taken since; the back end it
      leaves then blocks the name, although other ports may be free. */
  lemma LosesExactly(s: State, t: seq<Step>, i: nat, name: string)
    requires Inv(s.vm) && CanRun(s, t) && Only(s, i, name) && forall a :: a in t ==> !About(a, name)
    requires i < |Exec(s, t).calls| && Exec(s, t).calls[i].Backed?
    ensures Enabled(Exec(s, t), AddDevice(i, true))
    ensures var u := Exec(s, t);
            var v := Apply(u, AddDevice(i, true));
            && (Won(v.calls[i]) <==> Free(u.vm, u.calls[i].port))
            && (!Won(v.calls[i]) ==> name in v.vm.netdevs && !Present(v.vm, name) && v.vm == u.vm)
  {
    OnlyRun(s, t, i, name);
  }

  // ---------- one call on its own ----------

  ghost function Alone(s: State, i: nat, port: Option<string>, buses: seq<seq<PciDevice>>, fault: Fault): State
    requires i < |s.calls| && s.calls[i].Called? && Shows(s.vm, buses) && Chosen(buses, port)
  {
    var s1 := Apply(s, Query(i, fault != Earlier, buses, port));
    if !s1.calls[i].Picked? then s1
    else
      var s2 := Apply(s1, AddNetdev(i, fault != AtNetdev));
      if s2.calls[i].Backed? then Apply(s2, AddDevice(i, fault != AtDevice)) else s2
  }

  /** An attach that nothing overlaps is the attach of `PortOccupancy`, whichever of its calls
      fails: the port it chose is still free. */
  lemma AloneIsAtomic(s: State, i: nat, port: Option<string>, buses: seq<seq<PciDevice>>, fault: Fault)
    requires i < |s.calls| && s.calls[i].Called? && Shows(s.vm, buses) && Chosen(buses, port)
    ensures port.Some? ==> port.value in s.vm.ports
    ensures var u := Alone(s, i, port, buses, fault);
            && u.vm == Attach(s.vm, s.calls[i].name, port, fault).0
            && u.calls[i] == Returned(s.calls[i].name, Attach(s.vm, s.calls[i].name, port, fault).1)
  {
    ChosenIsEmpty(s.vm, DoAttach(s.calls[i].name, buses, port, fault));
  }

  /** A detach whose halves nothing overlaps is the detach of `PortOccupancy`, and what it
      deletes is gone. */
  lemma DetachAloneIsAtomic(s: State, name: string, fault: Fault)
    ensures var s1 := if fault == Earlier || fault == AtDevice then s else Apply(s, DeleteDevice(name));
            var u := if fault == NoFault then Apply(s1, DeleteNetdev(name)) else s1;
            && u == State(Detach(s.vm, name, fault).0, s.calls)
            && (fault == NoFault ==> name !in u.vm.netdevs && !Present(u.vm, name))
  {
    DetachAnswers(s.vm, name, fault);
  }
}

/** AttachVolume and DetachVolume of driver/driver.go take no lock: any number of attaches
    that overlap each other and the two halves of detaches, one step for each monitor call.
    `RbdPlug` is about one call at a time. */
module RbdOverlap {
  import opened RbdPlug

  datatype Pc =
    | Called(node: string)               // of an RBD volume
    | Adding(kind: Kind, node: string)   // blockdev-add is next: the query has not shown the node
    | Listing(node: string)              // qom-list is next
    | Plugging(node: string)             // device_add is next
    | Returned(node: string, ok: bool)

  datatype State = State(q: Qemu, calls: seq<Pc>)

  /** `ok` is whether a monitor call gets through. */
  datatype Step =
    | Begin(kind: Kind, node: string)
    | Query(i: nat, ok: bool)
    | AddNode(i: nat, ok: bool)
    | List(i: nat, ok: bool)
    | AddDevice(i: nat, ok: bool)
    | DeleteDevice(node: string)
    | DeleteNode(node: string)

  predicate OfCall(a: Step) { a.Query? || a.AddNode? || a.List? || a.AddDevice? }

  predicate Enabled(s: State, a: Step) {
    OfCall(a) ==> a.i < |s.calls| &&
                  match a
                  case Query(i, _) => s.calls[i].Called?
                  case AddNode(i, _) => s.calls[i].Adding?
                  case List(i, _) => s.calls[i].Listing?
                  case _ => s.calls[a.i].Plugging?
  }

  function Apply(s: State, a: Step): State
    requires Enabled(s, a)
  {
    match a
    case Begin(kind, node) => s.(calls := s.calls + [if kind == Rbd then Called(node) else Adding(kind, node)])
    case Query(i, ok) =>
      var node := s.calls[i].node;
      s.(calls := s.calls[i := if !ok then Returned(node, false)
                               else if HasNode(s.q, node) then Listing(node) else Adding(Rbd, node)])
    case AddNode(i, ok) =>
      var pc := s.calls[i];
      if ok && !HasNode(s.q, pc.node) then
        State(WithNode(s.q, pc.node), s.calls[i := if pc.kind == Rbd then Listing(pc.node) else Plugging(pc.node)])
      else s.(calls := s.calls[i := Returned(pc.node, false)])
    case List(i, ok) =>
      var node := s.calls[i].node;
      s.(calls := s.calls[i := if ok && !HasDevice(s.q, node) then Plugging(node) else Returned(node, ok)])
    case AddDevice(i, ok) =>
      var node := s.calls[i].node;
      if ok && !HasDevice(s.q, node) && HasNode(s.q, node) then
        State(WithDevice(s.q, node), s.calls[i := Returned(node, true)])
      else s.(calls := s.calls[i := Returned(node, false)])
    case DeleteDevice(node) => s.(q := WithoutDevice(s.q, node))
    case DeleteNode(node) => if InUse(s.q, node) then s else s.(q := s.q.(nodes := s.q.nodes - {node}))
  }

  predicate CanRun(s: State, t: seq<Step>)
    decreases t
  {
    t == [] || (Enabled(s, t[0]) && CanRun(Apply(s, t[0]), t[1..]))
  }

  function Exec(s: State, t: seq<Step>): State
    requires CanRun(s, t)
    decreases t
  {
    if t == [] then s else Exec(Apply(s, t[0]), t[1..])
  }

  // ---------- what every interleaving keeps ----------

  /** Every device is the one of an existing node. */
  predicate AllTidy(q: Qemu) {
    forall d :: d in q.devices ==> q.devices[d] in q.nodes && d == DeviceId(q.devices[d])
  }

  lemma AllTidyIsTidy(q: Qemu, node: string)
    requires AllTidy(q)
    ensures Tidy(q, node) && (HasDevice(q, node) ==> HasNode(q, node))
  {
    if HasDevice(q, node) {
      DeviceIdInjective(node, q.devices[DeviceId(node)]);
    }
  }

  lemma TidyKept(s: State, a: Step)
    requires AllTidy(s.q) && Enabled(s, a)
    ensures AllTidy(Apply(s, a).q)
  {
  }

  /** However attaches and detaches of any volumes overlap, every device uses an existing
      node and is that node's own. */
  lemma {:induction false} TidyInEveryRun(s: State, t: seq<Step>)
    requires AllTidy(s.q) && CanRun(s, t)
    ensures AllTidy(Exec(s, t).q)
    decreases t
  {
    if t != [] {
      TidyKept(s, t[0]);
      TidyInEveryRun(Apply(s, t[0]), t[1..]);
    }
  }

  /** When an attach returns nil the volume is attached, whatever else is under way. */
  lemma NilIsReal(s: State, a: Step)
    requires AllTidy(s.q) && Enabled(s, a) && OfCall(a) && Apply(s, a).calls[a.i] == Returned(s.calls[a.i].node, true)
    ensures var u := Apply(s, a); HasNode(u.q, s.calls[a.i].node) && HasDevice(u.q, s.calls[a.i].node)
  {
    AllTidyIsTidy(s.q, s.calls[a.i].node);
  }

  // ---------- two attaches of one volume ----------

  predicate Won(pc: Pc) { pc.Returned? && pc.ok }

  predicate Lost(pc: Pc) { pc.Returned? && !pc.ok }

  predicate On(pc: Pc, node: string) { pc.node == node }

  /** Call `j` will not get past blockdev-add once the other has. */
  predicate Behind(s: State, j: nat, node: string)
    requires j < |s.calls|
  {
    Lost(s.calls[j]) || (s.calls[j].Adding? && On(s.calls[j], node) && HasNode(s.q, node))
  }

  /** Both were about to add the node: still so, or one is behind for good. */
  predicate NodeRivals(s: State, i: nat, j: nat, node: string) {
    && i < |s.calls| && j < |s.calls| && i != j
    && ((s.calls[i].Adding? && On(s.calls[i], node) && s.calls[j].Adding? && On(s.calls[j], node))
        || Behind(s, i, node) || Behind(s, j, node))
  }

  lemma NodeRivalsStep(s: State, a: Step, i: nat, j: nat, node: string)
    requires Enabled(s, a) && a != DeleteNode(node) && NodeRivals(s, i, j, node)
    ensures NodeRivals(Apply(s, a), i, j, node)
  {
  }

  /** Of two attaches of one volume whose queries both came before its node was added, at most
      one succeeds, as long as the node is not deleted. */
  lemma {:induction false} OneAddsTheNode(s: State, t: seq<Step>, i: nat, j: nat, node: string)
    requires CanRun(s, t) && NodeRivals(s, i, j, node) && DeleteNode(node) !in t
    ensures NodeRivals(Exec(s, t), i, j, node)
    ensures !(Won(Exec(s, t).calls[i]) && Won(Exec(s, t).calls[j]))
    decreases t
  {
    if t != [] {
      assert t[0] in t && forall a :: a in t[1..] ==> a in t;
      NodeRivalsStep(s, t[0], i, j, node);
      OneAddsTheNode(Apply(s, t[0]), t[1..], i, j, node);
    }
  }

  predicate BehindDevice(s: State, j: nat, node: string)
    requires j < |s.calls|
  {
    Lost(s.calls[j]) || (s.calls[j].Plugging? && On(s.calls[j], node) && HasDevice(s.q, node))
  }

  predicate DeviceRivals(s: State, i: nat, j: nat, node: string) {
    && i < |s.calls| && j < |s.calls| && i != j
    && ((s.calls[i].Plugging? && On(s.calls[i], node) && s.calls[j].Plugging? && On(s.calls[j], node))
        || BehindDevice(s, i, node) || BehindDevice(s, j, node))
  }

  lemma DeviceRivalsStep(s: State, a: Step, i: nat, j: nat, node: string)
    requires Enabled(s, a) && a != DeleteDevice(node) && DeviceRivals(s, i, j, node)
    ensures DeviceRivals(Apply(s, a), i, j, node)
  {
    if a.DeleteDevice? && DeviceId(a.node) == DeviceId(node) {
      DeviceIdInjective(a.node, node);
    }
  }

  /** The same for two that have both seen the device missing. */
  lemma {:induction false} OneAddsTheDevice(s: State, t: seq<Step>, i: nat, j: nat, node: string)
    requires CanRun(s, t) && DeviceRivals(s, i, j, node) && DeleteDevice(node) !in t
    ensures DeviceRivals(Exec(s, t), i, j, node)
    ensures !(Won(Exec(s, t).calls[i]) && Won(Exec(s, t).calls[j]))
    decreases t
  {
    if t != [] {
      assert t[0] in t && forall a :: a in t[1..] ==> a in t;
      DeviceRivalsStep(s, t[0], i, j, node);
      OneAddsTheDevice(Apply(s, t[0]), t[1..], i, j, node);
    }
  }

  // ---------- attaches that meet no failure ----------

  /** No monitor call fails for reasons of its own, nothing is deleted, and all volumes are
      RBD volumes. */
  predicate Smooth(a: Step) {
    match a
    case Begin(kind, _) => kind == Rbd
    case DeleteDevice(_) => false
    case DeleteNode(_) => false
    case _ => a.ok
  }

  /** A call that still has a chance: it is past blockdev-add. */
  predicate Carries(pc: Pc, node: string) { (pc.Listing? || pc.Plugging?) && pc.node == node }

  predicate SomeCarrier(s: State, node: string) { exists j :: 0 <= j < |s.calls| && Carries(s.calls[j], node) }

  predicate SomeWinner(s: State, node: string) { Returned(node, true) in s.calls }

  /** `had`: the volume was attached at the start. */
  predicate Smoothly(s: State, node: string, had: bool) {
    && AllTidy(s.q)
    && (forall i :: 0 <= i < |s.calls| && s.calls[i].node == node ==> FitsIn(s, s.calls[i], node, had))
    && (HasDevice(s.q, node) ==> had || SomeWinner(s, node))
    && (had ==> HasDevice(s.q, node))
  }

  predicate FitsIn(s: State, pc: Pc, node: string, had: bool) {
    match pc
    case Called(_) => true
    case Adding(kind, _) => kind == Rbd && !had && (HasNode(s.q, node) ==> Underway(s, node))
    case Listing(_) => HasNode(s.q, node)
    case Plugging(_) => HasNode(s.q, node) && !had
    case Returned(_, ok) => if ok then HasDevice(s.q, node) else !had && Underway(s, node)
  }

  /** The device is there, or a call that can add it. */
  predicate Underway(s: State, node: string) { HasDevice(s.q, node) || SomeCarrier(s, node) }

  lemma UnderwayStays(s: State, a: Step, node: string)
    requires Enabled(s, a) && Smooth(a) && Smoothly(s, node, false) && Underway(s, node)
    ensures Underway(Apply(s, a), node)
  {
    if !HasDevice(s.q, node) {
      var j :| 0 <= j < |s.calls| && Carries(s.calls[j], node);
      var u := Apply(s, a);
      assert FitsIn(s, s.calls[j], node, false);
      assert u.calls[j] == s.calls[j] || Carries(u.calls[j], node) || HasDevice(u.q, node);
    }
  }

  lemma FitsStill(s: State, a: Step, node: string, had: bool, pc: Pc)
    requires Enabled(s, a) && Smooth(a) && Smoothly(s, node, had) && pc.node == node && FitsIn(s, pc, node, had)
    ensures FitsIn(Apply(s, a), pc, node, had)
  {
    if Underway(s, node) && !had {
      UnderwayStays(s, a, node);
    }
    if a.AddNode? && !HasNode(s.q, node) && HasNode(Apply(s, a).q, node) && !had {
      assert FitsIn(s, s.calls[a.i], node, had);
      assert Carries(Apply(s, a).calls[a.i], node);
    }
  }

  /** The call that makes the step. */
  lemma FitsAfter(s: State, a: Step, node: string, had: bool)
    requires Enabled(s, a) && Smooth(a) && OfCall(a) && Smoothly(s, node, had) && s.calls[a.i].node == node
    ensures FitsIn(Apply(s, a), Apply(s, a).calls[a.i], node, had)
  {
    AllTidyIsTidy(s.q, node);
    assert FitsIn(s, s.calls[a.i], node, had);
    if Underway(s, node) && !had {
      UnderwayStays(s, a, node);
    }
  }

  lemma SmoothStep(s: State, a: Step, node: string, had: bool)
    requires Enabled(s, a) && Smooth(a) && Smoothly(s, node, had)
    ensures Smoothly(Apply(s, a), node, had)
  {
    var u := Apply(s, a);
    TidyKept(s, a);
    forall i | 0 <= i < |u.calls| && u.calls[i].node == node ensures FitsIn(u, u.calls[i], node, had) {
      if OfCall(a) && a.i == i {
        FitsAfter(s, a, node, had);
      } else if i < |s.calls| {
        FitsStill(s, a, node, had, s.calls[i]);
      }
    }
    WinnerStays(s, a, node);
  }

  lemma WinnerStays(s: State, a: Step, node: string)
    requires Enabled(s, a) && Smooth(a)
    ensures SomeWinner(s, node) ==> SomeWinner(Apply(s, a), node)
    ensures HasDevice(Apply(s, a).q, node) ==> HasDevice(s.q, node) || SomeWinner(Apply(s, a), node)
    ensures HasDevice(s.q, node) ==> HasDevice(Apply(s, a).q, node)
  {
    var u := Apply(s, a);
    if SomeWinner(s, node) {
      var j :| 0 <= j < |s.calls| && s.calls[j] == Returned(node, true);
      assert u.calls[j] == s.calls[j];
    }
    if !HasDevice(s.q, node) && HasDevice(u.q, node) {
      DeviceIdInjective(s.calls[a.i].node, node);
      assert u.calls[a.i] == Returned(node, true);
    }
  }

  lemma {:induction false} SmoothRun(s: State, t: seq<Step>, node: string, had: bool)
    requires CanRun(s, t) && (forall a :: a in t ==> Smooth(a)) && Smoothly(s, node, had)
    ensures Smoothly(Exec(s, t), node, had)
    decreases t
  {
    if t != [] {
      assert t[0] in t && forall a :: a in t[1..] ==> a in t;
      SmoothStep(s, t[0], node, had);
      SmoothRun(Apply(s, t[0]), t[1..], node, had);
    }
  }

  /** However many attaches of one RBD volume overlap, if nothing fails and nothing is deleted
      the volume is attached once all have returned, and at least one has returned nil; no
      call fails if the volume was attached before. */
  lemma SomebodySucceeds(s: State, t: seq<Step>, node: string, i: nat)
    requires AllTidy(s.q) && CanRun(s, t) && forall a :: a in t ==> Smooth(a)
    requires forall j :: 0 <= j < |s.calls| && s.calls[j].node == node ==> s.calls[j].Called?
    requires var u := Exec(s, t);
             && i < |u.calls| && u.calls[i].node == node
             && forall j :: 0 <= j < |u.calls| && u.calls[j].node == node ==> u.calls[j].Returned?
    ensures var u := Exec(s, t);
            && HasNode(u.q, node) && HasDevice(u.q, node) && SomeWinner(u, node)
            && (HasDevice(s.q, node) ==> Returned(node, false) !in u.calls)
  {
    var had := HasDevice(s.q, node);
    SmoothRun(s, t, node, had);
    var u := Exec(s, t);
    AllTidyIsTidy(u.q, node);
    assert FitsIn(u, u.calls[i], node, had);
    assert !SomeCarrier(u, node);
  }

  // ---------- one call on its own ----------

  function NextStep(pc: Pc, i: nat, a: Attach): Step
    requires !pc.Returned?
  {
    match pc
    case Called(_) => Query(i, a.queryOk)
    case Adding(_, _) => AddNode(i, a.nodeOk)
    case Listing(_) => List(i, a.listOk)
    case Plugging(_) => AddDevice(i, a.deviceOk)
  }

  function Left(pc: Pc): nat {
    match pc
    case Called(_) => 4
    case Adding(_, _) => 3
    case Listing(_) => 2
    case Plugging(_) => 1
    case Returned(_, _) => 0
  }

  function Alone(s: State, i: nat, a: Attach): (r: State)
    requires i < |s.calls|
    decreases Left(s.calls[i])
  {
    if s.calls[i].Returned? then s else Alone(Apply(s, NextStep(s.calls[i], i, a)), i, a)
  }

  /** Where an attach of `RbdPlug` begins. */
  function Start(node: string, kind: Kind): Pc { if kind == Rbd then Called(node) else Adding(Image, node) }

  /** The second stage, with the node there. */
  lemma AloneFromList(s: State, i: nat, node: string, a: Attach)
    requires i < |s.calls| && (s.calls[i] == Listing(node) || s.calls[i] == Plugging(node)) && HasNode(s.q, node)
    ensures var asks := s.calls[i].Listing?;
            var plugs := (asks ==> a.listOk) && !HasDevice(s.q, node) && a.deviceOk;
            Alone(s, i, a) == State(if plugs then WithDevice(s.q, node) else s.q, s.calls[i := Returned(node,
              plugs || (asks && a.listOk && HasDevice(s.q, node)))])
  {
    var s1 := Apply(s, NextStep(s.calls[i], i, a));
    assert Alone(s, i, a) == Alone(s1, i, a);
    if s1.calls[i].Plugging? {
      assert Alone(s1, i, a) == Apply(s1, AddDevice(i, a.deviceOk));
    }
  }

  /** An attach that nothing overlaps is the attach of `RbdPlug`, whichever call fails. */
  lemma AloneIsAtomic(s: State, i: nat, node: string, a: Attach)
    requires i < |s.calls| && s.calls[i] == Start(node, a.kind)
    ensures Alone(s, i, a) == State(Attached(s.q, node, a), s.calls[i := Returned(node, Attaches(s.q, node, a))])
  {
    var s1 := Apply(s, NextStep(s.calls[i], i, a));
    assert Alone(s, i, a) == Alone(s1, i, a);
    if s1.calls[i].Adding? {
      var s2 := Apply(s1, AddNode(i, a.nodeOk));
      assert Alone(s1, i, a) == Alone(s2, i, a);
      if !s2.calls[i].Returned? {
        AloneFromList(s2, i, node, a);
      }
    } else if !s1.calls[i].Returned? {
      AloneFromList(s1, i, node, a);
    }
  }

  /** A detach whose halves nothing overlaps is the detach of `RbdPlug`, and it leaves neither
      device nor node unless another device uses the node. */
  lemma DetachAloneIsAtomic(s: State, node: string, d: Detach)
    ensures var s1 := if d.deviceOk then Apply(s, DeleteDevice(node)) else s;
            var u := if d.deviceOk && d.nodeOk then Apply(s1, DeleteNode(node)) else s1;
            && u == State(Detached(s.q, node, d), s.calls)
            && (d.deviceOk ==> ("scsi-" + node) !in u.q.devices)
            && (d.deviceOk && d.nodeOk && AllTidy(s.q) ==> node !in u.q.nodes)
  {
    if AllTidy(s.q) {
      AllTidyIsTidy(s.q, node);
      NotInUse(s.q, node);
    }
  }
}

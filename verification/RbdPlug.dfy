/** Attaching and detaching volumes (devices/storage/rbd.go, devices/storage/image.go and
    AttachVolume, DetachVolume of driver/driver.go). Deleting a device is one step. */
module RbdPlug {

  /** QEMU's block nodes, and its SCSI devices with the node each one uses. */
  datatype Qemu = Qemu(nodes: set<string>, devices: map<string, string>)

  datatype Kind = Rbd | Image

  /** Which monitor calls of an attach get through. */
  datatype Attach = Attach(kind: Kind, queryOk: bool, nodeOk: bool, listOk: bool, deviceOk: bool)

  /** Which monitor calls of a detach get through. */
  datatype Detach = Detach(deviceOk: bool, nodeOk: bool)

  function DeviceId(node: string): string { "scsi-" + node }

  lemma DeviceIdInjective(m: string, n: string)
    requires DeviceId(m) == DeviceId(n)
    ensures m == n
  {
    assert DeviceId(m)[5..] == m && DeviceId(n)[5..] == n;
  }

  predicate InUse(q: Qemu, node: string) { exists d :: d in q.devices && q.devices[d] == node }

  /** Every device uses an existing node. */
  predicate Sound(q: Qemu) { forall d :: d in q.devices ==> q.devices[d] in q.nodes }

  /** The node is used by no device but its own. */
  predicate OwnDevice(q: Qemu, node: string) {
    forall d :: d in q.devices && q.devices[d] == node ==> d == DeviceId(node)
  }

  predicate HasNode(q: Qemu, node: string) { node in q.nodes }

  predicate HasDevice(q: Qemu, node: string) { DeviceId(node) in q.devices }

  // ---------- what a call does ----------

  function WithNode(q: Qemu, node: string): Qemu { q.(nodes := q.nodes + {node}) }

  function WithDevice(q: Qemu, node: string): Qemu { q.(devices := q.devices[DeviceId(node) := node]) }

  predicate AddsNode(q: Qemu, node: string, a: Attach) {
    !HasNode(q, node) && a.nodeOk && (a.kind == Rbd ==> a.queryOk)
  }

  /** The node is there when the device is looked at, and the call has not failed. */
  predicate PassesNode(q: Qemu, node: string, a: Attach) {
    match a.kind
    case Rbd => a.queryOk && (HasNode(q, node) || a.nodeOk)
    case Image => !HasNode(q, node) && a.nodeOk
  }

  predicate AddsDevice(q: Qemu, node: string, a: Attach) {
    PassesNode(q, node, a) && !HasDevice(q, node) && a.deviceOk && (a.kind == Rbd ==> a.listOk)
  }

  predicate Attaches(q: Qemu, node: string, a: Attach) {
    match a.kind
    case Rbd => PassesNode(q, node, a) && a.listOk && (HasDevice(q, node) || a.deviceOk)
    case Image => PassesNode(q, node, a) && !HasDevice(q, node) && a.deviceOk
  }

  function Attached(q: Qemu, node: string, a: Attach): Qemu {
    var q1 := if AddsNode(q, node, a) then WithNode(q, node) else q;
    if AddsDevice(q, node, a) then WithDevice(q1, node) else q1
  }

  predicate DropsNode(q: Qemu, node: string, d: Detach) {
    d.deviceOk && d.nodeOk && !InUse(WithoutDevice(q, node), node)
  }

  function WithoutDevice(q: Qemu, node: string): Qemu { q.(devices := q.devices - {DeviceId(node)}) }

  function Detached(q: Qemu, node: string, d: Detach): Qemu {
    var q1 := if d.deviceOk then WithoutDevice(q, node) else q;
    if DropsNode(q, node, d) then q1.(nodes := q1.nodes - {node}) else q1
  }

  // ---------- the driver's code ----------

  datatype Reply = Done | NotFound | Error

  class Machine {
    var nodes: set<string>
    var devices: map<string, string>

    function State(): Qemu
      reads this
    {
      Qemu(nodes, devices)
    }

    constructor (q: Qemu)
      ensures State() == q
    {
      nodes, devices := q.nodes, q.devices;
    }

    /** blockdev-add */
    method AddBlockDevice(node: string, through: bool) returns (ok: bool)
      modifies this`nodes
      ensures ok == (through && node !in old(nodes))
      ensures nodes == if ok then old(nodes) + {node} else old(nodes)
    {
      ok := through && node !in nodes;
      if ok {
        nodes := nodes + {node};
      }
    }

    /** device_add of a SCSI disk */
    method AddDevice(id: string, drive: string, through: bool) returns (ok: bool)
      modifies this`devices
      ensures ok == (through && id !in old(devices) && drive in nodes)
      ensures devices == if ok then old(devices)[id := drive] else old(devices)
    {
      ok := through && id !in devices && drive in nodes;
      if ok {
        devices := devices[id := drive];
      }
    }

    method DeleteDevice(id: string, through: bool) returns (r: Reply)
      modifies this`devices
      ensures r == if !through then Error else if id in old(devices) then Done else NotFound
      ensures devices == if r == Done then old(devices) - {id} else old(devices)
    {
      if !through {
        return Error;
      }
      if id !in devices {
        return NotFound;
      }
      devices := devices - {id};
      return Done;
    }

    /** blockdev-del; a node in use is not deleted. */
    method DeleteBlockDevice(node: string, through: bool) returns (r: Reply)
      modifies this`nodes
      ensures r == if !through then Error
                   else if node !in old(nodes) then NotFound
                   else if InUse(old(State()), node) then Error else Done
      ensures nodes == if r == Done then old(nodes) - {node} else old(nodes)
    {
      if !through {
        return Error;
      }
      if node !in nodes {
        return NotFound;
      }
      if InUse(State(), node) {
        return Error;
      }
      nodes := nodes - {node};
      return Done;
    }

    /** rbdDrive.Plug; `blocks` are the node names the query lists, in any order. */
    method PlugRbd(node: string, blocks: seq<string>, a: Attach) returns (ok: bool)
      requires a.kind == Rbd && forall n :: n in blocks <==> n in nodes
      modifies this
      ensures State() == Attached(old(State()), node, a) && ok == Attaches(old(State()), node, a)
    {
      if !a.queryOk {
        return false;
      }
      var blockdevExists := false;
      for i := 0 to |blocks|
        invariant !blockdevExists && node !in blocks[..i]
      {
        if blocks[i] != node {
          continue;
        }
        blockdevExists := true;
        break;
      }
      assert blockdevExists == (node in nodes);
      if !blockdevExists {
        var added := AddBlockDevice(node, a.nodeOk);
        if !added {
          return false;
        }
      }
      ok := PlugScsi(node, a.listOk, a.deviceOk);
    }

    /** The second stage: the device, unless it is listed already. */
    method PlugScsi(node: string, listOk: bool, deviceOk: bool) returns (ok: bool)
      requires node in nodes
      modifies this`devices
      ensures ok == (listOk && (HasDevice(old(State()), node) || deviceOk))
      ensures devices == if listOk && !HasDevice(old(State()), node) && deviceOk
                         then old(devices)[DeviceId(node) := node] else old(devices)
    {
      var id := DeviceId(node);
      var reply := if !listOk then Error else if id in devices then Done else NotFound;
      var deviceExists := true;
      if reply == NotFound {
        deviceExists := false;
      } else if reply == Error {
        return false;
      }
      if !deviceExists {
        var added := AddDevice(id, node, deviceOk);
        if !added {
          return false;
        }
      }
      return true;
    }

    /** imageDrive.Plug */
    method PlugImage(node: string, a: Attach) returns (ok: bool)
      requires a.kind == Image
      modifies this
      ensures State() == Attached(old(State()), node, a) && ok == Attaches(old(State()), node, a)
    {
      ok := AddBlockDevice(node, a.nodeOk);
      if !ok {
        return false;
      }
      ok := AddDevice(DeviceId(node), node, a.deviceOk);
    }

    method AttachVolume(node: string, blocks: seq<string>, a: Attach) returns (ok: bool)
      requires forall n :: n in blocks <==> n in nodes
      modifies this
      ensures State() == Attached(old(State()), node, a) && ok == Attaches(old(State()), node, a)
    {
      match a.kind
      case Rbd => ok := PlugRbd(node, blocks, a);
      case Image => ok := PlugImage(node, a);
    }

    method DetachVolume(node: string, d: Detach) returns (ok: bool)
      modifies this
      ensures State() == Detached(old(State()), node, d)
      ensures ok ==> !HasNode(State(), node) && !HasDevice(State(), node)
      ensures Sound(old(State())) && OwnDevice(old(State()), node) ==> ok == (d.deviceOk && d.nodeOk)
    {
      var r := DeleteDevice(DeviceId(node), d.deviceOk);
      if r == Error {
        return false;
      }
      assert State() == WithoutDevice(old(State()), node);
      r := DeleteBlockDevice(node, d.nodeOk);
      return r != Error;
    }
  }

  // ---------- histories ----------

  datatype Op = Attaching(a: Attach) | Detaching(d: Detach)

  function Do(q: Qemu, node: string, op: Op): Qemu {
    match op
    case Attaching(a) => Attached(q, node, a)
    case Detaching(d) => Detached(q, node, d)
  }

  function Run(q: Qemu, node: string, t: seq<Op>): Qemu
    decreases t
  {
    if t == [] then q else Run(Do(q, node, t[0]), node, t[1..])
  }

  predicate Clean(a: Attach) { a.queryOk && a.nodeOk && a.listOk && a.deviceOk }

  const CLEAN := Attach(Rbd, true, true, true, true)
  const FULL := Detach(true, true)

  /** What a history of one volume can do: anything else is untouched. */
  predicate Alike(q: Qemu, r: Qemu, node: string) {
    && q.nodes - {node} == r.nodes - {node}
    && q.devices - {DeviceId(node)} == r.devices - {DeviceId(node)}
  }

  /** The device of this volume, if any, uses this volume's node. */
  predicate Tidy(q: Qemu, node: string) {
    && Sound(q) && OwnDevice(q, node)
    && (HasDevice(q, node) ==> q.devices[DeviceId(node)] == node)
  }

  lemma {:induction false} TidyRun(q: Qemu, node: string, t: seq<Op>)
    requires Tidy(q, node)
    ensures Tidy(Run(q, node, t), node) && Alike(q, Run(q, node, t), node)
    decreases t
  {
    if t != [] {
      TidyStep(q, node, t[0]);
      TidyRun(Do(q, node, t[0]), node, t[1..]);
    }
  }

  lemma TidyStep(q: Qemu, node: string, op: Op)
    requires Tidy(q, node)
    ensures Tidy(Do(q, node, op), node) && Alike(q, Do(q, node, op), node)
  {
    if op.Detaching? {
      NotInUse(q, node);
    }
  }

  lemma NotInUse(q: Qemu, node: string)
    requires OwnDevice(q, node)
    ensures !InUse(WithoutDevice(q, node), node)
  {
  }

  /** Two tidy states that agree on everything else agree once both have the volume, and
      once neither has it. */
  lemma SameVolume(q: Qemu, r: Qemu, node: string)
    requires Tidy(q, node) && Tidy(r, node) && Alike(q, r, node)
    ensures Attached(q, node, CLEAN) == Attached(r, node, CLEAN)
    ensures Detached(q, node, FULL) == Detached(r, node, FULL)
  {
    NotInUse(q, node);
    NotInUse(r, node);
    SameAttached(q, r, node);
    assert q.devices - {DeviceId(node)} == r.devices - {DeviceId(node)};
    assert q.nodes - {node} == r.nodes - {node};
  }

  lemma SameAttached(q: Qemu, r: Qemu, node: string)
    requires Tidy(q, node) && Tidy(r, node) && Alike(q, r, node)
    ensures Attached(q, node, CLEAN) == Attached(r, node, CLEAN)
  {
    var id := DeviceId(node);
    var x, y := Attached(q, node, CLEAN), Attached(r, node, CLEAN);
    assert x.nodes == (q.nodes - {node}) + {node} && y.nodes == (r.nodes - {node}) + {node};
    assert x.devices == (q.devices - {id})[id := node];
    assert y.devices == (r.devices - {id})[id := node];
  }

  /** After any history of attaches and detaches of the volume, each failing anywhere, an
      attach that meets no failure ends where it would have ended at the start, and so does
      a detach. */
  lemma HistoryConverges(q: Qemu, node: string, t: seq<Op>)
    requires Tidy(q, node)
    ensures var r := Run(q, node, t);
            && Attached(r, node, CLEAN) == Attached(q, node, CLEAN) && Attaches(r, node, CLEAN)
            && Detached(r, node, FULL) == Detached(q, node, FULL)
  {
    TidyRun(q, node, t);
    SameVolume(q, Run(q, node, t), node);
  }

  /** Plugging a second time changes nothing and succeeds. */
  lemma RbdIdempotent(q: Qemu, node: string, a: Attach)
    requires Attaches(q, node, a)
    ensures HasNode(Attached(q, node, a), node) && HasDevice(Attached(q, node, a), node)
    ensures Attached(Attached(q, node, a), node, CLEAN) == Attached(q, node, a)
    ensures Attaches(Attached(q, node, a), node, CLEAN)
  {
  }

  /** Detaching undoes any history of the volume exactly when the volume was not there. */
  lemma DetachUndoesExactly(q: Qemu, node: string, t: seq<Op>)
    requires Tidy(q, node)
    ensures Detached(Run(q, node, t), node, FULL) == q <==> !HasNode(q, node) && !HasDevice(q, node)
  {
    HistoryConverges(q, node, t);
    NotInUse(q, node);
    var r := Detached(q, node, FULL);
    assert node !in r.nodes && DeviceId(node) !in r.devices;
    if !HasNode(q, node) && !HasDevice(q, node) {
      assert r.nodes == q.nodes && r.devices == q.devices;
    }
  }

  /** A file-backed volume has no such retry: it attaches only to a machine with neither
      its node nor its device, so a call that failed after adding the node blocks every
      later one until a detach. */
  lemma ImageRetryExactly(q: Qemu, node: string, a: Attach, again: Attach)
    requires a.kind == Image && again.kind == Image && Clean(again) && !Attaches(q, node, a)
    requires !HasNode(q, node) && !HasDevice(q, node)
    ensures Attaches(Attached(q, node, a), node, again) <==> !a.nodeOk
    ensures Tidy(q, node) ==> Attaches(Detached(Attached(q, node, a), node, FULL), node, again)
  {
    if Tidy(q, node) {
      DetachUndoesExactly(q, node, [Attaching(a)]);
      assert Run(q, node, [Attaching(a)]) == Attached(q, node, a);
    }
  }

  /** Volumes with different node names do not touch each other. */
  lemma OtherVolumes(q: Qemu, node: string, other: string, op: Op)
    requires Tidy(q, node) && node != other
    ensures HasNode(Do(q, node, op), other) == HasNode(q, other)
    ensures HasDevice(Do(q, node, op), other) == HasDevice(q, other)
  {
    TidyStep(q, node, op);
    if DeviceId(node) == DeviceId(other) {
      DeviceIdInjective(node, other);
    }
    var r := Do(q, node, op);
    assert other in q.nodes - {node} <==> other in r.nodes - {node};
    assert DeviceId(other) in q.devices - {DeviceId(node)} <==> DeviceId(other) in r.devices - {DeviceId(node)};
  }

  // ---------- written out ----------

  /** An attach of an RBD volume: what is there already is not added again. */
  lemma RbdAttachIs(q: Qemu, node: string, a: Attach)
    requires a.kind == Rbd
    ensures Attached(q, node, a).nodes == if a.queryOk && a.nodeOk then q.nodes + {node} else q.nodes
    ensures Attached(q, node, a).devices
         == if a.queryOk && (a.nodeOk || node in q.nodes) && a.listOk && a.deviceOk && ("scsi-" + node) !in q.devices
            then q.devices["scsi-" + node := node] else q.devices
    ensures Attaches(q, node, a) <==>
            && a.queryOk && (node in q.nodes || a.nodeOk)
            && a.listOk && (("scsi-" + node) in q.devices || a.deviceOk)
  {
  }

  /** An attach of a file-backed volume: what is there already is an error. */
  lemma ImageAttachIs(q: Qemu, node: string, a: Attach)
    requires a.kind == Image
    ensures Attached(q, node, a).nodes == if a.nodeOk then q.nodes + {node} else q.nodes
    ensures Attached(q, node, a).devices
         == if a.nodeOk && node !in q.nodes && a.deviceOk && ("scsi-" + node) !in q.devices
            then q.devices["scsi-" + node := node] else q.devices
    ensures Attaches(q, node, a) <==>
            a.nodeOk && node !in q.nodes && a.deviceOk && ("scsi-" + node) !in q.devices
  {
  }

  /** A detach: the device first, and then the node unless a device still uses it. */
  lemma DetachIs(q: Qemu, node: string, d: Detach)
    ensures Detached(q, node, d).devices == if d.deviceOk then q.devices - {"scsi-" + node} else q.devices
    ensures node in Detached(q, node, d).nodes <==>
            && node in q.nodes
            && !(d.deviceOk && d.nodeOk
                 && forall x :: x in q.devices && x != "scsi-" + node ==> q.devices[x] != node)
    ensures Detached(q, node, d).nodes - {node} == q.nodes - {node}
  {
    var r := WithoutDevice(q, node);
    assert forall x :: x in r.devices <==> x in q.devices && x != "scsi-" + node;
  }
}

/** Plugging a tap adapter (devices/pcie/tapNetwork.go): who holds which descriptor. */
module TapPlug {
  import opened Text

  /** A name in QEMU's descriptor table; Render below is its text. */
  datatype Name = Tap(queue: nat) | Vhost(queue: nat)

  /** The calls that can fail. CloseName(i) is the roll-back's close of the i-th tap name. */
  datatype Point =
    | QueryCpus | Stat | ReadIndex
    | OpenTap(i: nat) | Configure(i: nat) | SendTap(i: nat)
    | OpenVhost(i: nat) | SendVhost(i: nat)
    | NetdevAdd | DeviceAdd
    | CloseName(i: nat)

  /** One call of Plug: the number of vCPUs, whether the link is a macvtap, the calls that
      fail, and the names a refused netdev_add has already taken out of the table. */
  datatype Attempt = Attempt(queues: nat, macvtap: bool, fails: set<Point>, eaten: set<Name>)

  /** QEMU: the named descriptors not yet used, and whether the adapter's netdev and
      device exist. */
  datatype Qemu = Qemu(table: set<Name>, netdev: bool, device: bool)

  // ---------- names ----------

  function Render(netdevName: string, n: Name): string {
    match n
    case Tap(i) => netdevName + "." + Dec(i)
    case Vhost(i) => netdevName + ".vhost." + Dec(i)
  }

  function Taps(k: nat): seq<Name> { seq(k, i requires 0 <= i => Tap(i)) }

  function Vhosts(k: nat): seq<Name> { seq(k, i requires 0 <= i => Vhost(i)) }

  function Texts(netdevName: string, names: seq<Name>): seq<string> {
    seq(|names|, i requires 0 <= i < |names| => Render(netdevName, names[i]))
  }

  /** No two names of one adapter have the same text. */
  lemma RenderInjective(netdevName: string, a: Name, b: Name)
    requires Render(netdevName, a) == Render(netdevName, b)
    ensures a == b
  {
    var k := |netdevName| + 1;
    Suffix(netdevName, ".", a.queue);
    Suffix(netdevName, ".", b.queue);
    Suffix(netdevName, ".vhost.", a.queue);
    Suffix(netdevName, ".vhost.", b.queue);
    if a.Tap? == b.Tap? {
      PrintInjective(a.queue, b.queue, 10);
    } else {
      VhostMark(netdevName, if a.Tap? then b.queue else a.queue);
    }
  }

  lemma Suffix(netdevName: string, mark: string, i: nat)
    ensures (netdevName + mark + Dec(i))[|netdevName| + |mark|..] == Dec(i)
  {
  }

  lemma VhostMark(netdevName: string, i: nat)
    ensures (netdevName + ".vhost." + Dec(i))[|netdevName| + 1] == 'v'
  {
  }

  /** The `fds` and `vhostfds` arguments name exactly the descriptors sent, in order. */
  lemma ArgumentSplits(netdevName: string, names: seq<Name>)
    requires names != [] && Lacks(netdevName, ':')
    ensures Split(Join(Texts(netdevName, names), ':'), ':') == Texts(netdevName, names)
  {
    var texts := Texts(netdevName, names);
    forall i | 0 <= i < |texts| ensures Lacks(texts[i], ':') {
      RenderLacks(netdevName, names[i]);
    }
    SplitOfJoin(texts, ':');
  }

  lemma RenderLacks(netdevName: string, n: Name)
    requires Lacks(netdevName, ':')
    ensures Lacks(Render(netdevName, n), ':')
  {
  }

  // ---------- what one call does ----------

  function TapSet(k: nat): set<Name> { set i | 0 <= i < k :: Tap(i) }

  function VhostSet(k: nat): set<Name> { set i | 0 <= i < k :: Vhost(i) }

  /** How many tap and vhost names are sent from queue `i` on. */
  function Sent(i: nat, n: nat, fails: set<Point>): (nat, nat)
    requires i <= n
    decreases n - i
  {
    if i == n then (n, n)
    else if OpenTap(i) in fails || Configure(i) in fails || SendTap(i) in fails then (i, i)
    else if OpenVhost(i) in fails || SendVhost(i) in fails then (i + 1, i)
    else Sent(i + 1, n, fails)
  }

  /** Whether the tap and the vhost name of one queue are sent. */
  function SentOf(i: nat, fails: set<Point>): (bool, bool) {
    var tap := OpenTap(i) !in fails && Configure(i) !in fails && SendTap(i) !in fails;
    (tap, tap && OpenVhost(i) !in fails && SendVhost(i) !in fails)
  }

  lemma SentStep(i: nat, n: nat, fails: set<Point>)
    requires i < n
    ensures var (tap, vhost) := SentOf(i, fails);
            Sent(i, n, fails) == if vhost then Sent(i + 1, n, fails) else if tap then (i + 1, i) else (i, i)
  {
  }

  /** The names in the order they are sent. */
  function Interleaved(taps: nat, vhosts: nat): seq<Name>
    requires vhosts <= taps <= vhosts + 1
  {
    if taps == 0 then []
    else if taps > vhosts then Interleaved(taps - 1, vhosts) + [Tap(taps - 1)]
    else Interleaved(taps, vhosts - 1) + [Vhost(vhosts - 1)]
  }

  predicate Starts(a: Attempt) {
    QueryCpus !in a.fails && Stat !in a.fails && !(a.macvtap && ReadIndex in a.fails)
  }

  /** Both counts; nothing is sent when the preparation fails. */
  function SentBy(a: Attempt): (nat, nat) { if Starts(a) then Sent(0, a.queues, a.fails) else (0, 0) }

  lemma {:induction false} SentFacts(i: nat, n: nat, fails: set<Point>)
    requires i <= n
    ensures var (t, v) := Sent(i, n, fails); i <= v <= t <= v + 1 && t <= n
    decreases n - i
  {
    if i < n {
      SentFacts(i + 1, n, fails);
    }
  }

  /** Every queue's descriptors are sent. */
  predicate SendsAll(a: Attempt) { Starts(a) && Sent(0, a.queues, a.fails) == (a.queues, a.queues) }

  /** netdev_add is accepted. */
  predicate GetsNetdev(q: Qemu, a: Attempt) { SendsAll(a) && NetdevAdd !in a.fails && !q.netdev }

  predicate GetsDevice(q: Qemu, a: Attempt) { GetsNetdev(q, a) && DeviceAdd !in a.fails && !q.device }

  /** The table before the deferred function runs. */
  function Filled(q: Qemu, a: Attempt): set<Name> {
    var all := q.table + TapSet(SentBy(a).0) + VhostSet(SentBy(a).1);
    if GetsNetdev(q, a) then all - TapSet(a.queues) - VhostSet(a.queues)
    else if SendsAll(a) then all - a.eaten
    else all
  }

  function After(q: Qemu, a: Attempt): Qemu {
    Qemu(if GetsDevice(q, a) then Filled(q, a) else Filled(q, a) - Closed(SentBy(a).0, a.fails),
         q.netdev || GetsNetdev(q, a),
         q.device || GetsDevice(q, a))
  }

  /** The tap names whose close goes through. */
  function Closed(taps: nat, fails: set<Point>): set<Name> {
    set i | 0 <= i < taps && CloseName(i) !in fails :: Tap(i)
  }

  // ---------- the driver's code ----------

  function Elems(s: seq<nat>): set<nat> { set x | x in s }

  predicate Distinct(s: seq<nat>) { forall i, j :: 0 <= i < j < |s| ==> s[i] != s[j] }

  predicate AllBelow(s: set<nat>, n: nat) { forall x :: x in s ==> x < n }

  lemma {:induction false} SomeFree(s: set<nat>)
    ensures exists n: nat :: AllBelow(s, n)
  {
    if s == {} {
      assert AllBelow(s, 0);
    } else {
      var y :| y in s;
      SomeFree(s - {y});
      var m: nat :| AllBelow(s - {y}, m);
      assert forall x :: x in s ==> x in s - {y} || x == y;
      assert AllBelow(s, if y < m then m else y + 1);
    }
  }

  /** The process and QEMU. `sent` and `tried` record the getfd and closefd commands, `given`
      the descriptor names passed to netdev_add. */
  class World {
    var openFds: set<nat>
    var table: set<Name>
    var netdev: bool
    var device: bool
    var sent: seq<Name>
    var tried: seq<Name>
    var given: seq<(seq<Name>, seq<Name>)>

    function State(): Qemu
      reads this
    {
      Qemu(table, netdev, device)
    }

    constructor (openFds: set<nat>, q: Qemu)
      ensures this.openFds == openFds && State() == q && sent == [] && tried == [] && given == []
    {
      this.openFds := openFds;
      table, netdev, device := q.table, q.netdev, q.device;
      sent, tried, given := [], [], [];
    }

    /** os.OpenFile: a number that is not in use. */
    method OpenFile(through: bool) returns (fd: Option<nat>)
      modifies this`openFds
      ensures fd.Some? == through
      ensures fd.Some? ==> fd.value !in old(openFds) && openFds == old(openFds) + {fd.value}
      ensures fd.None? ==> openFds == old(openFds)
    {
      if !through {
        return None;
      }
      SomeFree(openFds);
      ghost var bound: nat :| AllBelow(openFds, bound);
      assert bound !in openFds;
      var n: nat :| n !in openFds;
      openFds := openFds + {n};
      return Some(n);
    }

    /** Closing a number that is not open would hit somebody else's descriptor. */
    method Close(fd: nat)
      requires fd in openFds
      modifies this`openFds
      ensures openFds == old(openFds) - {fd}
    {
      openFds := openFds - {fd};
    }

    /** openTap: the descriptor is closed again when configuring it fails. */
    method OpenTapFile(open: bool, configure: bool) returns (fd: Option<nat>)
      modifies this`openFds
      ensures fd.Some? == (open && configure)
      ensures fd.Some? ==> fd.value !in old(openFds) && openFds == old(openFds) + {fd.value}
      ensures fd.None? ==> openFds == old(openFds)
    {
      fd := OpenFile(open);
      if fd.Some? && !configure {
        Close(fd.value);
        return None;
      }
    }

    /** getfd: a second descriptor under the same name replaces the first. */
    method SendFd(name: Name, fd: nat, through: bool) returns (ok: bool)
      requires fd in openFds
      modifies this`table, this`sent
      ensures ok == through
      ensures table == if ok then old(table) + {name} else old(table)
      ensures sent == if ok then old(sent) + [name] else old(sent)
    {
      ok := through;
      if ok {
        table, sent := table + {name}, sent + [name];
      }
    }

    /** closefd */
    method CloseFd(name: Name, through: bool)
      modifies this`table, this`tried
      ensures table == if through then old(table) - {name} else old(table)
      ensures tried == old(tried) + [name]
    {
      tried := tried + [name];
      if through {
        table := table - {name};
      }
    }

    /** netdev_add takes the named descriptors out of the table. */
    method AddNetworkDevice(fds: seq<Name>, vhostFds: seq<Name>, through: bool, eaten: set<Name>) returns (ok: bool)
      modifies this`table, this`netdev, this`given
      ensures ok == (through && !old(netdev)) && netdev == (old(netdev) || ok)
      ensures table == if ok then old(table) - (set x | x in fds) - (set x | x in vhostFds) else old(table) - eaten
      ensures given == old(given) + [(fds, vhostFds)]
    {
      given := given + [(fds, vhostFds)];
      ok := through && !netdev;
      if ok {
        table := table - (set x | x in fds) - (set x | x in vhostFds);
        netdev := true;
      } else {
        table := table - eaten;
      }
    }

    method AddDevice(through: bool) returns (ok: bool)
      modifies this`device
      ensures ok == (through && !old(device)) && device == (old(device) || ok)
    {
      ok := through && !device;
      device := device || ok;
    }

    /** The two loops of the deferred function that close files. */
    method CloseAll(fds: seq<nat>)
      requires Distinct(fds) && Elems(fds) <= openFds
      modifies this`openFds
      ensures openFds == old(openFds) - Elems(fds)
    {
      for i := 0 to |fds|
        invariant openFds == old(openFds) - Elems(fds[..i])
      {
        assert fds[i] in Elems(fds) && fds[i] !in Elems(fds[..i]);
        Close(fds[i]);
        assert fds[..i + 1] == fds[..i] + [fds[i]];
      }
      assert fds[..|fds|] == fds;
    }

    /** The loop of the deferred function that takes names back. */
    method CloseNames(names: seq<Name>, fails: set<Point>)
      requires names == Taps(|names|)
      modifies this`table, this`tried
      ensures table == old(table) - Closed(|names|, fails) && tried == old(tried) + names
    {
      for i := 0 to |names|
        invariant table == old(table) - Closed(i, fails) && tried == old(tried) + names[..i]
      {
        CloseFd(names[i], CloseName(i) !in fails);
        assert names[..i + 1] == names[..i] + [names[i]];
        ClosedSnoc(i, fails);
      }
      assert names[..|names|] == names;
    }

    /** What the two slices of files say about the open descriptors. */
    ghost predicate Holds(base: set<nat>, fds: seq<nat>, vhostFds: seq<nat>)
      reads this`openFds
    {
      && Distinct(fds + vhostFds)
      && Elems(fds + vhostFds) !! base
      && openFds == base + Elems(fds + vhostFds)
    }

    /** The first half of a queue: open the tap and send it. */
    method SendTapOf(i: nat, fails: set<Point>, ghost base: set<nat>, fds0: seq<nat>, vhostFds: seq<nat>)
      returns (ok: bool, fds: seq<nat>)
      requires Holds(base, fds0, vhostFds)
      modifies this`openFds, this`table, this`sent
      ensures Holds(base, fds, vhostFds)
      ensures ok == (OpenTap(i) !in fails && Configure(i) !in fails && SendTap(i) !in fails)
      ensures table == if ok then old(table) + {Tap(i)} else old(table)
      ensures sent == if ok then old(sent) + [Tap(i)] else old(sent)
    {
      fds := fds0;
      var fd := OpenTapFile(OpenTap(i) !in fails, Configure(i) !in fails);
      if fd.None? {
        return false, fds;
      }
      AddedTap(fds, vhostFds, fd.value);
      fds := fds + [fd.value];
      ok := SendFd(Tap(i), fd.value, SendTap(i) !in fails);
    }

    /** The second half: open /dev/vhost-net and send it. */
    method SendVhostOf(i: nat, fails: set<Point>, ghost base: set<nat>, fds: seq<nat>, vhostFds0: seq<nat>)
      returns (ok: bool, vhostFds: seq<nat>)
      requires Holds(base, fds, vhostFds0)
      modifies this`openFds, this`table, this`sent
      ensures Holds(base, fds, vhostFds)
      ensures ok == (OpenVhost(i) !in fails && SendVhost(i) !in fails)
      ensures table == if ok then old(table) + {Vhost(i)} else old(table)
      ensures sent == if ok then old(sent) + [Vhost(i)] else old(sent)
    {
      vhostFds := vhostFds0;
      var vhostFd := OpenFile(OpenVhost(i) !in fails);
      if vhostFd.None? {
        return false, vhostFds;
      }
      AddedVhost(fds, vhostFds, vhostFd.value);
      vhostFds := vhostFds + [vhostFd.value];
      ok := SendFd(Vhost(i), vhostFd.value, SendVhost(i) !in fails);
    }

    /** One pass of the loop over the queues. */
    method SendQueue(i: nat, fails: set<Point>, ghost base: set<nat>,
                     fds0: seq<nat>, fdNames0: seq<Name>, vhostFds0: seq<nat>, vhostFdNames0: seq<Name>)
      returns (ok: bool, fds: seq<nat>, fdNames: seq<Name>, vhostFds: seq<nat>, vhostFdNames: seq<Name>)
      requires Holds(base, fds0, vhostFds0)
      modifies this`openFds, this`table, this`sent
      ensures Holds(base, fds, vhostFds)
      ensures var (tap, vhost) := SentOf(i, fails);
              && ok == vhost
              && fdNames == fdNames0 + (if tap then [Tap(i)] else [])
              && vhostFdNames == vhostFdNames0 + (if vhost then [Vhost(i)] else [])
              && sent == old(sent) + (if tap then [Tap(i)] else []) + (if vhost then [Vhost(i)] else [])
              && table == old(table) + (if tap then {Tap(i)} else {}) + (if vhost then {Vhost(i)} else {})
    {
      fdNames, vhostFds, vhostFdNames := fdNames0, vhostFds0, vhostFdNames0;
      ok, fds := SendTapOf(i, fails, base, fds0, vhostFds);
      if !ok {
        return;
      }
      fdNames := fdNames + [Tap(i)];
      ok, vhostFds := SendVhostOf(i, fails, base, fds, vhostFds);
      if !ok {
        return;
      }
      vhostFdNames := vhostFdNames + [Vhost(i)];
    }

    /** The loop over the queues. `ok` is false when a call failed. */
    method SendQueues(queues: nat, fails: set<Point>)
      returns (ok: bool, fds: seq<nat>, fdNames: seq<Name>, vhostFds: seq<nat>, vhostFdNames: seq<Name>)
      modifies this`openFds, this`table, this`sent
      ensures Holds(old(openFds), fds, vhostFds)
      ensures var (t, v) := Sent(0, queues, fails);
              && v <= t <= v + 1 <= queues + 1 && ok == (t == v == queues)
              && fdNames == Taps(t) && vhostFdNames == Vhosts(v)
              && sent == old(sent) + Interleaved(t, v) && table == old(table) + TapSet(t) + VhostSet(v)
    {
      SentFacts(0, queues, fails);
      ghost var base := openFds;
      fds, fdNames, vhostFds, vhostFdNames := [], [], [], [];
      var i := 0;
      while i < queues
        invariant i <= queues && Sent(i, queues, fails) == Sent(0, queues, fails)
        invariant Holds(base, fds, vhostFds)
        invariant fdNames == Taps(i) && vhostFdNames == Vhosts(i)
        invariant sent == old(sent) + Interleaved(i, i) && table == old(table) + TapSet(i) + VhostSet(i)
      {
        SentStep(i, queues, fails);
        NextQueue(i);
        ok, fds, fdNames, vhostFds, vhostFdNames := SendQueue(i, fails, base, fds, fdNames, vhostFds, vhostFdNames);
        if !ok {
          return;
        }
        i := i + 1;
      }
      ok := true;
    }

    /** The deferred function. */
    method Deferred(ok: bool, ghost base: set<nat>, fds: seq<nat>, vhostFds: seq<nat>, fdNames: seq<Name>,
                    fails: set<Point>)
      requires Holds(base, fds, vhostFds) && fdNames == Taps(|fdNames|)
      modifies this`openFds, this`table, this`tried
      ensures openFds == base
      ensures table == if ok then old(table) else old(table) - Closed(|fdNames|, fails)
      ensures tried == if ok then old(tried) else old(tried) + fdNames
    {
      SplitElems(fds, vhostFds);
      CloseAll(fds);
      CloseAll(vhostFds);
      if !ok {
        CloseNames(fdNames, fails);
      }
    }

    /** Everything Plug does after registering the deferred function. */
    method PlugBody(a: Attempt)
      returns (ok: bool, fds: seq<nat>, fdNames: seq<Name>, vhostFds: seq<nat>)
      requires QueryCpus !in a.fails
      modifies this`openFds, this`table, this`sent, this`netdev, this`device, this`given
      ensures Holds(old(openFds), fds, vhostFds)
      ensures var q := old(State()); var (t, v) := SentBy(a);
              && ok == GetsDevice(q, a) && fdNames == Taps(t)
              && State() == After(q, a).(table := Filled(q, a))
              && v <= t <= v + 1 && sent == old(sent) + Interleaved(t, v)
              && given == old(given) + (if SendsAll(a) then [(Taps(a.queues), Vhosts(a.queues))] else [])
    {
      fds, fdNames, vhostFds := [], [], [];
      if Stat in a.fails || (a.macvtap && ReadIndex in a.fails) {
        return false, fds, fdNames, vhostFds;
      }
      var vhostFdNames;
      ok, fds, fdNames, vhostFds, vhostFdNames := SendQueues(a.queues, a.fails);
      if !ok {
        return false, fds, fdNames, vhostFds;
      }
      ok := AddBoth(a, fdNames, vhostFdNames);
    }

    /** netdev_add and then device_add. */
    method AddBoth(a: Attempt, fdNames: seq<Name>, vhostFdNames: seq<Name>) returns (ok: bool)
      requires fdNames == Taps(a.queues) && vhostFdNames == Vhosts(a.queues)
      modifies this`table, this`netdev, this`device, this`given
      ensures var accepted := NetdevAdd !in a.fails && !old(netdev);
              && netdev == (old(netdev) || accepted)
              && ok == (accepted && DeviceAdd !in a.fails && !old(device)) && device == (old(device) || ok)
              && table == (if accepted then old(table) - TapSet(a.queues) - VhostSet(a.queues)
                           else old(table) - a.eaten)
      ensures given == old(given) + [(Taps(a.queues), Vhosts(a.queues))]
    {
      NameSets(a.queues);
      ok := AddNetworkDevice(fdNames, vhostFdNames, NetdevAdd !in a.fails, a.eaten);
      if !ok {
        return false;
      }
      ok := AddDevice(DeviceAdd !in a.fails);
    }

    method Plug(a: Attempt) returns (ok: bool)
      modifies this
      ensures openFds == old(openFds)
      ensures State() == After(old(State()), a) && ok == GetsDevice(old(State()), a)
      ensures var (t, v) := SentBy(a);
              && v <= t <= v + 1
              && sent == old(sent) + Interleaved(t, v)
              && tried == old(tried) + (if ok then [] else Taps(t))
      ensures given == old(given) + (if SendsAll(a) then [(Taps(a.queues), Vhosts(a.queues))] else [])
    {
      if QueryCpus in a.fails {
        return false;
      }
      ghost var base := openFds;
      var fds, fdNames, vhostFds;
      ok, fds, fdNames, vhostFds := PlugBody(a);
      Deferred(ok, base, fds, vhostFds, fdNames, a.fails);
    }

    /** DeleteDevice; `through` is false for an error other than "not found". */
    method DeleteDevice(through: bool) returns (ok: bool, notFound: bool)
      modifies this`device
      ensures ok == (through && old(device)) && notFound == (through && !old(device))
      ensures device == (old(device) && !ok)
    {
      ok, notFound := through && device, through && !device;
      device := device && !ok;
    }

    method DeleteNetworkDevice(through: bool) returns (ok: bool, notFound: bool)
      modifies this`netdev
      ensures ok == (through && old(netdev)) && notFound == (through && !old(netdev))
      ensures netdev == (old(netdev) && !ok)
    {
      ok, notFound := through && netdev, through && !netdev;
      netdev := netdev && !ok;
    }

    /** UnplugTapNetworkDevice */
    method Unplug(deviceOk: bool, netdevOk: bool) returns (ok: bool)
      modifies this`device, this`netdev
      ensures State() == Unplugged(old(State()), deviceOk, netdevOk) && ok == (deviceOk && netdevOk)
    {
      var deleted, notFound := DeleteDevice(deviceOk);
      if !deleted && !notFound {
        return false;
      }
      deleted, notFound := DeleteNetworkDevice(netdevOk);
      if !deleted && !notFound {
        return false;
      }
      return true;
    }
  }

  lemma SplitElems(fds: seq<nat>, vhostFds: seq<nat>)
    requires Distinct(fds + vhostFds)
    ensures Distinct(fds) && Distinct(vhostFds)
    ensures Elems(fds) !! Elems(vhostFds) && Elems(fds + vhostFds) == Elems(fds) + Elems(vhostFds)
  {
    var all := fds + vhostFds;
    assert forall i :: 0 <= i < |fds| ==> all[i] == fds[i];
    assert forall i :: 0 <= i < |vhostFds| ==> all[|fds| + i] == vhostFds[i];
  }

  lemma NameSets(k: nat)
    ensures (set x | x in Taps(k)) == TapSet(k) && (set x | x in Vhosts(k)) == VhostSet(k)
  {
    forall i | 0 <= i < k ensures Tap(i) in Taps(k) && Vhost(i) in Vhosts(k) {
      assert Taps(k)[i] == Tap(i) && Vhosts(k)[i] == Vhost(i);
    }
  }

  lemma NextQueue(i: nat)
    ensures Taps(i + 1) == Taps(i) + [Tap(i)] && Vhosts(i + 1) == Vhosts(i) + [Vhost(i)]
    ensures TapSet(i + 1) == TapSet(i) + {Tap(i)} && VhostSet(i + 1) == VhostSet(i) + {Vhost(i)}
    ensures Interleaved(i + 1, i) == Interleaved(i, i) + [Tap(i)]
    ensures Interleaved(i + 1, i + 1) == Interleaved(i + 1, i) + [Vhost(i)]
  {
  }

  lemma ClosedSnoc(i: nat, fails: set<Point>)
    ensures Closed(i + 1, fails) == Closed(i, fails) + (if CloseName(i) in fails then {} else {Tap(i)})
  {
  }

  lemma AddedTap(fds: seq<nat>, vhostFds: seq<nat>, fd: nat)
    requires Distinct(fds + vhostFds) && fd !in fds + vhostFds
    ensures Distinct(fds + [fd] + vhostFds)
    ensures Elems(fds + [fd] + vhostFds) == Elems(fds + vhostFds) + {fd}
  {
    var all, before := fds + [fd] + vhostFds, fds + vhostFds;
    forall i, j | 0 <= i < j < |all| ensures all[i] != all[j] {
      assert i != |fds| ==> all[i] == before[if i < |fds| then i else i - 1];
      assert j != |fds| ==> all[j] == before[if j < |fds| then j else j - 1];
    }
    assert forall x :: x in all <==> x in fds || x == fd || x in vhostFds;
    assert forall x :: x in before <==> x in fds || x in vhostFds;
  }

  lemma AddedVhost(fds: seq<nat>, vhostFds: seq<nat>, fd: nat)
    requires Distinct(fds + vhostFds) && fd !in fds + vhostFds
    ensures Distinct(fds + (vhostFds + [fd]))
    ensures Elems(fds + (vhostFds + [fd])) == Elems(fds + vhostFds) + {fd}
  {
    assert fds + (vhostFds + [fd]) == fds + vhostFds + [fd];
  }

  function Unplugged(q: Qemu, deviceOk: bool, netdevOk: bool): Qemu {
    q.(device := q.device && !deviceOk, netdev := q.netdev && !(deviceOk && netdevOk))
  }

  // ---------- one call ----------

  /** The failures that matter to an attempt. */
  predicate Matters(p: Point, a: Attempt) {
    match p
    case ReadIndex => a.macvtap
    case OpenTap(i) => i < a.queues
    case Configure(i) => i < a.queues
    case SendTap(i) => i < a.queues
    case OpenVhost(i) => i < a.queues
    case SendVhost(i) => i < a.queues
    case CloseName(_) => false
    case _ => true
  }

  predicate NoFailure(a: Attempt) { forall p :: p in a.fails ==> !Matters(p, a) }

  predicate QueueFails(i: nat, fails: set<Point>) {
    OpenTap(i) in fails || Configure(i) in fails || SendTap(i) in fails
    || OpenVhost(i) in fails || SendVhost(i) in fails
  }

  lemma {:induction false} SentAllExactly(i: nat, n: nat, fails: set<Point>)
    requires i <= n
    ensures Sent(i, n, fails) == (n, n) <==> forall j :: i <= j < n ==> !QueueFails(j, fails)
    decreases n - i
  {
    if i < n {
      SentAllExactly(i + 1, n, fails);
      assert Sent(i, n, fails) == (n, n) <==> !QueueFails(i, fails) && Sent(i + 1, n, fails) == (n, n);
    }
  }

  /** Plug succeeds exactly when no call fails and QEMU has neither the netdev nor the device. */
  lemma SucceedsExactly(q: Qemu, a: Attempt)
    ensures GetsDevice(q, a) <==> NoFailure(a) && !q.netdev && !q.device
  {
    SentAllExactly(0, a.queues, a.fails);
    if GetsDevice(q, a) {
      forall p | p in a.fails ensures !Matters(p, a) {
        if p.OpenTap? || p.Configure? || p.SendTap? || p.OpenVhost? || p.SendVhost? {
          assert p.i < a.queues ==> !QueueFails(p.i, a.fails);
        }
      }
    }
  }

  /** What is sent: tap and vhost of one queue after the other, each once. */
  lemma {:induction false} InterleavedAt(t: nat, v: nat, k: nat)
    requires v <= t <= v + 1 && k < t + v
    ensures |Interleaved(t, v)| == t + v
    ensures Interleaved(t, v)[k] == if k % 2 == 0 then Tap(k / 2) else Vhost(k / 2)
    decreases t + v
  {
    var (t0, v0) := if t > v then (t - 1, v) else (t, v - 1);
    if t0 + v0 > 0 {
      InterleavedAt(t0, v0, if k < t0 + v0 then k else 0);
    }
  }

  /** The names closed by the roll-back are all the tap names sent and no vhost name. */
  lemma RollbackClosesExactly(t: nat, v: nat, n: Name)
    requires v <= t <= v + 1
    ensures n in Interleaved(t, v) <==> (if n.Tap? then n.queue < t else n.queue < v)
    ensures n in Taps(t) <==> n in Interleaved(t, v) && n.Tap?
  {
    var k := if n.Tap? then 2 * n.queue else 2 * n.queue + 1;
    if k < t + v {
      InterleavedAt(t, v, k);
    }
    if n in Interleaved(t, v) {
      if t + v > 0 {
        InterleavedAt(t, v, 0);
      }
      var j :| 0 <= j < |Interleaved(t, v)| && Interleaved(t, v)[j] == n;
      InterleavedAt(t, v, j);
    }
    assert n.Tap? && n.queue < t ==> Taps(t)[n.queue] == n;
  }

  predicate ClosesGoThrough(a: Attempt) { forall i :: 0 <= i < a.queues ==> CloseName(i) !in a.fails }

  /** What a failed call does to QEMU's table, whatever was in it: it adds the vhost names
      it sent, removes the tap names it sent, and removes what netdev_add took. */
  lemma FailureLeavesExactly(q: Qemu, a: Attempt, n: Name)
    requires !GetsDevice(q, a) && ClosesGoThrough(a)
    ensures n in After(q, a).table <==>
            && (n in q.table || (n.Vhost? && n.queue < SentBy(a).1))
            && !(n.Tap? && n.queue < SentBy(a).0)
            && !(if GetsNetdev(q, a) then n.queue < a.queues else SendsAll(a) && n in a.eaten)
  {
    SentFacts(0, a.queues, a.fails);
  }

  /** How far the loop gets: queue by queue, first the tap and then the vhost descriptor, up to
      the first call that fails. */
  lemma {:induction false} SentExactly(i: nat, n: nat, fails: set<Point>)
    requires i <= n
    ensures var (t, v) := Sent(i, n, fails);
            && i <= v <= t <= n && t <= v + 1
            && (forall j :: i <= j < t ==> OpenTap(j) !in fails && Configure(j) !in fails && SendTap(j) !in fails)
            && (forall j :: i <= j < v ==> OpenVhost(j) !in fails && SendVhost(j) !in fails)
            && (t == v < n ==> OpenTap(t) in fails || Configure(t) in fails || SendTap(t) in fails)
            && (v < t ==> OpenVhost(v) in fails || SendVhost(v) in fails)
    decreases n - i
  {
    if i < n {
      SentExactly(i + 1, n, fails);
    }
  }

  /** netdev_add is accepted exactly when everything before it went through and there is no
      netdev yet; then device_add decides. */
  lemma AcceptedExactly(q: Qemu, a: Attempt)
    ensures GetsNetdev(q, a) <==>
            && QueryCpus !in a.fails && Stat !in a.fails && (a.macvtap ==> ReadIndex !in a.fails)
            && (forall j :: 0 <= j < a.queues ==>
                  OpenTap(j) !in a.fails && Configure(j) !in a.fails && SendTap(j) !in a.fails
                  && OpenVhost(j) !in a.fails && SendVhost(j) !in a.fails)
            && NetdevAdd !in a.fails && !q.netdev
    ensures GetsDevice(q, a) <==> GetsNetdev(q, a) && DeviceAdd !in a.fails && !q.device
    ensures After(q, a).netdev <==> q.netdev || GetsNetdev(q, a)
    ensures After(q, a).device <==> q.device || GetsDevice(q, a)
    ensures QueryCpus in a.fails || Stat in a.fails || (a.macvtap && ReadIndex in a.fails) ==> SentBy(a) == (0, 0)
  {
    SentAllExactly(0, a.queues, a.fails);
    if forall j :: 0 <= j < a.queues ==> !QueueFails(j, a.fails) {
      forall j | 0 <= j < a.queues
        ensures OpenTap(j) !in a.fails && Configure(j) !in a.fails && SendTap(j) !in a.fails
                && OpenVhost(j) !in a.fails && SendVhost(j) !in a.fails
      {
        assert !QueueFails(j, a.fails);
      }
    }
  }

  /** The names as text, and an unplug: the device first, and the netdev only after it. */
  lemma TextsAre(netdevName: string, i: nat, q: Qemu, deviceOk: bool, netdevOk: bool)
    ensures Render(netdevName, Tap(i)) == netdevName + "." + Dec(i)
    ensures Render(netdevName, Vhost(i)) == netdevName + ".vhost." + Dec(i)
    ensures Unplugged(q, deviceOk, netdevOk).device <==> q.device && !deviceOk
    ensures Unplugged(q, deviceOk, netdevOk).netdev <==> q.netdev && !(deviceOk && netdevOk)
    ensures Unplugged(q, deviceOk, netdevOk).table == q.table
  {
  }

  // ---------- histories ----------

  datatype Op = Plugging(a: Attempt) | Unplugging(deviceOk: bool, netdevOk: bool)

  function Do(q: Qemu, op: Op): Qemu {
    match op
    case Plugging(a) => After(q, a)
    case Unplugging(d, n) => Unplugged(q, d, n)
  }

  function Run(q: Qemu, t: seq<Op>): Qemu
    decreases t
  {
    if t == [] then q else Run(Do(q, t[0]), t[1..])
  }

  /** No tap descriptor is held under a name, and only vhost names below `bound` are. */
  predicate Bounded(q: Qemu, bound: nat) { forall n :: n in q.table ==> n.Vhost? && n.queue < bound }

  /** However many calls fail, while their closes go through no tap descriptor stays in
      QEMU, and the vhost descriptors left are at most one per queue. */
  lemma {:induction false} LeaksDoNotAdd(q: Qemu, t: seq<Op>, bound: nat)
    requires Bounded(q, bound)
    requires forall i :: 0 <= i < |t| && t[i].Plugging? ==> ClosesGoThrough(t[i].a) && t[i].a.queues <= bound
    ensures Bounded(Run(q, t), bound)
    decreases t
  {
    if t != [] {
      if t[0].Plugging? {
        SentFacts(0, t[0].a.queues, t[0].a.fails);
      }
      LeaksDoNotAdd(Do(q, t[0]), t[1..], bound);
    }
  }

  /** The device needs its netdev. */
  predicate Sound(q: Qemu) { q.device ==> q.netdev }

  lemma {:induction false} SoundRun(q: Qemu, t: seq<Op>)
    requires Sound(q)
    ensures Sound(Run(q, t))
    decreases t
  {
    if t != [] {
      SoundRun(Do(q, t[0]), t[1..]);
    }
  }

  /** The netdev is left in QEMU by some attempt of `t`. */
  predicate LeavesNetdev(q: Qemu, t: seq<Attempt>)
    decreases t
  {
    t != [] && (GetsNetdev(q, t[0]) || LeavesNetdev(After(q, t[0]), t[1..]))
  }

  function Plugs(t: seq<Attempt>): seq<Op> { seq(|t|, i requires 0 <= i < |t| => Plugging(t[i])) }

  lemma {:induction false} NetdevStays(q: Qemu, t: seq<Attempt>)
    requires Sound(q)
    ensures Run(q, Plugs(t)).netdev <==> q.netdev || LeavesNetdev(q, t)
    decreases t
  {
    if t != [] {
      assert Plugs(t)[1..] == Plugs(t[1..]);
      NetdevStays(After(q, t[0]), t[1..]);
    }
  }

  /** Retrying helps exactly until netdev_add has been accepted once: after that, device_add
      having failed or not, every further call fails. */
  lemma RetrySucceedsExactly(q: Qemu, t: seq<Attempt>, a: Attempt)
    requires Sound(q) && !q.netdev && NoFailure(a)
    ensures GetsDevice(Run(q, Plugs(t)), a) <==> !LeavesNetdev(q, t)
  {
    SoundRun(q, Plugs(t));
    NetdevStays(q, t);
    SucceedsExactly(Run(q, Plugs(t)), a);
  }

  /** A successful unplug undoes the plug, and after any history lets the next one succeed. */
  lemma UnplugUndoes(q: Qemu, a: Attempt)
    ensures GetsDevice(q, a) ==> Unplugged(After(q, a), true, true).(table := q.table) == q
    ensures NoFailure(a) ==> GetsDevice(Unplugged(q, true, true), a)
  {
    SucceedsExactly(Unplugged(q, true, true), a);
  }
}

/** The tap plug of devices/pcie/tapNetwork.go takes no lock: any number of plugs of one
    adapter name that overlap each other and the two halves of unplugs. All of them use the
    same descriptor names in the table of QEMU. `TapPlug` is about one call at a time. */
module TapOverlap {
  import opened Text
  import opened TapPlug

  /** Where a call is: `queue` queues are sent, and the tap of the next one if `half`; or the
      names of `taps` taps are to be taken back, from number `next` on. */
  datatype Pc =
    | Called
    | Sending(queues: nat, queue: nat, half: bool)
    | Backed(queues: nat)                // netdev_add accepted, device_add next
    | Closing(taps: nat, next: nat)
    | Returned(ok: bool)

  datatype State = State(q: Qemu, calls: seq<Pc>)

  datatype Step =
    | Begin
    | Count(i: nat, ok: bool, queues: nat)                  // query-cpus and what precedes the loop
    | PassTap(i: nat)
    | PassVhost(i: nat)
    | Fail(i: nat)                                          // a call of the loop fails
    | AddNetdev(i: nat, ok: bool, eaten: set<Name>)
    | AddDevice(i: nat, ok: bool)
    | Close(i: nat, ok: bool)
    | DeleteDevice
    | DeleteNetdev

  predicate OfCall(a: Step) { !a.Begin? && !a.DeleteDevice? && !a.DeleteNetdev? }

  predicate Ready(pc: Pc, a: Step)
    requires OfCall(a)
  {
    match a
    case Count(_, _, _) => pc.Called?
    case PassTap(_) => pc.Sending? && pc.queue < pc.queues && !pc.half
    case PassVhost(_) => pc.Sending? && pc.queue < pc.queues && pc.half
    case Fail(_) => pc.Sending? && pc.queue < pc.queues
    case AddNetdev(_, _, _) => pc.Sending? && pc.queue >= pc.queues
    case AddDevice(_, _) => pc.Backed?
    case Close(_, _) => pc.Closing?
  }

  predicate Enabled(s: State, a: Step) { OfCall(a) ==> a.i < |s.calls| && Ready(s.calls[a.i], a) }

  predicate Of(a: Step, i: nat) { OfCall(a) && a.i == i }

  /** The names a call passes to netdev_add. */
  function Names(n: nat): set<Name> { TapSet(n) + VhostSet(n) }

  /** netdev_add: the netdev is new and all names are there. */
  predicate Accepts(q: Qemu, n: nat) { !q.netdev && Names(n) <= q.table }

  function TapsOf(pc: Pc): nat
    requires pc.Sending?
  {
    if pc.half then pc.queue + 1 else pc.queue
  }

  /** The deferred function after an error. */
  function RollBack(taps: nat, next: nat): Pc { if next >= taps then Returned(false) else Closing(taps, next) }

  function Effect(q: Qemu, pc: Pc, a: Step): (Qemu, Pc)
    requires OfCall(a) && Ready(pc, a)
  {
    match a
    case Count(_, ok, queues) => (q, if ok then Sending(queues, 0, false) else Returned(false))
    case PassTap(_) => (q.(table := q.table + {Tap(pc.queue)}), pc.(half := true))
    case PassVhost(_) => (q.(table := q.table + {Vhost(pc.queue)}), Sending(pc.queues, pc.queue + 1, false))
    case Fail(_) => (q, RollBack(TapsOf(pc), 0))
    case AddNetdev(_, ok, eaten) =>
      if ok && Accepts(q, pc.queues) then
        (q.(table := q.table - Names(pc.queues), netdev := true), Backed(pc.queues))
      else (q.(table := q.table - eaten), RollBack(TapsOf(pc), 0))
    case AddDevice(_, ok) =>
      if ok && !q.device && q.netdev then (q.(device := true), Returned(true)) else (q, RollBack(pc.queues, 0))
    case Close(_, ok) =>
      (if ok then q.(table := q.table - {Tap(pc.next)}) else q, RollBack(pc.taps, pc.next + 1))
  }

  function Apply(s: State, a: Step): State
    requires Enabled(s, a)
  {
    match a
    case Begin => s.(calls := s.calls + [Called])
    case DeleteDevice => s.(q := s.q.(device := false))
    case DeleteNetdev => s.(q := s.q.(netdev := false))
    case _ =>
      var e := Effect(s.q, s.calls[a.i], a);
      State(e.0, s.calls[a.i := e.1])
  }

  predicate CanRun(s: State, t: seq<Step>)
    decreases t
  {
    t == [] || (Enabled(s, t[0]) && CanRun(Apply(s, t[0]), t[1..]))
  }

  function Exec(s: State, t: seq<Step>): State
    requires CanRun(s, t)
    decreases t
  {
    if t == [] then s else Exec(Apply(s, t[0]), t[1..])
  }

  lemma RunCons(s: State, a: Step, t: seq<Step>)
    requires Enabled(s, a) && CanRun(Apply(s, a), t)
    ensures CanRun(s, [a] + t) && Exec(s, [a] + t) == Exec(Apply(s, a), t)
  {
    assert ([a] + t)[1..] == t;
  }

  // ---------- what is left in the table ----------

  /** The call has sent tap name `k` and will still use it or take it back. */
  predicate Holds(pc: Pc, k: nat) {
    match pc
    case Sending(_, _, _) => k < TapsOf(pc)
    case Closing(taps, next) => next <= k < taps
    case _ => false
  }

  predicate Held(s: State, k: nat) { exists i :: 0 <= i < |s.calls| && Holds(s.calls[i], k) }

  predicate Fits(pc: Pc) { pc.Sending? ==> pc.queue <= pc.queues && (pc.half ==> pc.queue < pc.queues) }

  ghost predicate TapsAreHeld(s: State) {
    && (forall i :: 0 <= i < |s.calls| ==> Fits(s.calls[i]))
    && (forall k: nat :: Tap(k) in s.q.table ==> Held(s, k))
  }

  /** The other steps leave the holder alone; its own keep the name, use it or take it back. */
  lemma HolderStep(s: State, a: Step, i: nat, k: nat)
    requires Enabled(s, a) && i < |s.calls| && Holds(s.calls[i], k) && Fits(s.calls[i]) && (a.Close? ==> a.ok)
    ensures i < |Apply(s, a).calls| && (Holds(Apply(s, a).calls[i], k) || Tap(k) !in Apply(s, a).q.table)
  {
    assert s.calls[i].Sending? && k < s.calls[i].queues ==> Tap(k) in Names(s.calls[i].queues);
  }

  lemma HeldStep(s: State, a: Step)
    requires TapsAreHeld(s) && Enabled(s, a) && (a.Close? ==> a.ok)
    ensures TapsAreHeld(Apply(s, a))
  {
    var u := Apply(s, a);
    forall k: nat | Tap(k) in u.q.table ensures Held(u, k) {
      if Tap(k) in s.q.table {
        var i :| 0 <= i < |s.calls| && Holds(s.calls[i], k);
        assert Fits(s.calls[i]);
        HolderStep(s, a, i, k);
      } else {
        assert Holds(u.calls[a.i], k);
      }
    }
  }

  lemma {:induction false} HeldRun(s: State, t: seq<Step>)
    requires TapsAreHeld(s) && CanRun(s, t) && forall a :: a in t && a.Close? ==> a.ok
    ensures TapsAreHeld(Exec(s, t))
    decreases t
  {
    if t != [] {
      assert t[0] in t && forall a :: a in t[1..] ==> a in t;
      HeldStep(s, t[0]);
      HeldRun(Apply(s, t[0]), t[1..]);
    }
  }

  /** However plugs of one adapter overlap, if the roll-backs go through no tap descriptor is
      left in QEMU once all of them have returned. */
  lemma NoTapStays(s: State, t: seq<Step>, k: nat)
    requires TapsAreHeld(s) && CanRun(s, t) && forall a :: a in t && a.Close? ==> a.ok
    requires forall i :: 0 <= i < |Exec(s, t).calls| ==> Exec(s, t).calls[i].Returned?
    ensures Tap(k) !in Exec(s, t).q.table
  {
    HeldRun(s, t);
  }

  // ---------- at most one ----------

  predicate Past(pc: Pc) { pc.Backed? || (pc.Returned? && pc.ok) }

  predicate Rivals(s: State, i: nat, j: nat) {
    && i < |s.calls| && j < |s.calls| && i != j && !(Past(s.calls[i]) && Past(s.calls[j]))
    && (Past(s.calls[i]) || Past(s.calls[j]) ==> s.q.netdev)
  }

  lemma RivalsStep(s: State, a: Step, i: nat, j: nat)
    requires Enabled(s, a) && !a.DeleteNetdev? && Rivals(s, i, j)
    ensures Rivals(Apply(s, a), i, j)
  {
  }

  /** Of two overlapping plugs at most one gets the netdev, and so returns nil, as long as the
      netdev is not deleted. */
  lemma {:induction false} OneGetsTheNetdev(s: State, t: seq<Step>, i: nat, j: nat)
    requires CanRun(s, t) && Rivals(s, i, j) && DeleteNetdev !in t
    ensures Rivals(Exec(s, t), i, j)
    decreases t
  {
    if t != [] {
      assert t[0] in t && forall a :: a in t[1..] ==> a in t;
      RivalsStep(s, t[0], i, j);
      OneGetsTheNetdev(Apply(s, t[0]), t[1..], i, j);
    }
  }

  // ---------- when one call spoils another ----------

  /** Call `i` has sent everything, nothing is missing, and there is no netdev yet. */
  predicate Full(s: State, i: nat, n: nat) {
    n > 0 && i < |s.calls| && s.calls[i] == Sending(n, n, false) && Accepts(s.q, n)
  }

  /** A call that can still take one of the first `n` names out of the table, or the netdev. */
  predicate Threatens(pc: Pc, n: nat) {
    match pc
    case Called => true
    case Sending(_, _, _) => true
    case Backed(queues) => queues > 0
    case Closing(_, next) => next < n
    case Returned(_) => false
  }

  predicate Threatened(s: State, i: nat, n: nat) {
    exists j :: 0 <= j < |s.calls| && j != i && Threatens(s.calls[j], n)
  }

  /** Steps of calls that have begun, other than `i`. */
  predicate ByOthers(t: seq<Step>, i: nat) { forall a :: a in t ==> OfCall(a) && a.i != i }

  ghost predicate CanBeSpoilt(s: State, i: nat, n: nat) {
    exists t: seq<Step> :: CanRun(s, t) && ByOthers(t, i) && !Accepts(Exec(s, t).q, n)
  }

  lemma CloseSpoils(s: State, j: nat, n: nat) returns (t: seq<Step>)
    requires j < |s.calls| && s.calls[j].Closing? && s.calls[j].next < n
    ensures CanRun(s, t) && (forall a :: a in t ==> Of(a, j)) && !Accepts(Exec(s, t).q, n)
  {
    RunCons(s, Close(j, true), []);
    t := [Close(j, true)];
    assert Tap(s.calls[j].next) in Names(n);
  }

  /** The roll-back of call `j` after an error takes names away that call `i` has sent. */
  lemma FailSpoils(s: State, j: nat, n: nat) returns (t: seq<Step>)
    requires j < |s.calls| && s.calls[j].Sending? && n > 0 && TapsOf(s.calls[j]) > 0
    ensures CanRun(s, t) && (forall a :: a in t ==> Of(a, j)) && !Accepts(Exec(s, t).q, n)
  {
    var a := if s.calls[j].queue < s.calls[j].queues then Fail(j) else AddNetdev(j, false, {});
    t := CloseSpoils(Apply(s, a), j, n);
    RunCons(s, a, t);
    t := [a] + t;
  }

  lemma SendingSpoils(s: State, j: nat, n: nat) returns (t: seq<Step>)
    requires j < |s.calls| && s.calls[j].Sending? && n > 0
    ensures CanRun(s, t) && (forall a :: a in t ==> Of(a, j)) && !Accepts(Exec(s, t).q, n)
  {
    var pc := s.calls[j];
    if TapsOf(pc) > 0 {
      t := FailSpoils(s, j, n);
    } else if pc.queues > 0 {
      t := FailSpoils(Apply(s, PassTap(j)), j, n);
      RunCons(s, PassTap(j), t);
      t := [PassTap(j)] + t;
    } else if Accepts(s.q, 0) {
      RunCons(s, AddNetdev(j, true, {}), []);
      t := [AddNetdev(j, true, {})];
    } else {
      t := [];
      assert Names(0) == {};
    }
  }

  lemma ThreatSpoils(s: State, i: nat, j: nat, n: nat)
    requires j < |s.calls| && j != i && Threatens(s.calls[j], n) && n > 0
    ensures CanBeSpoilt(s, i, n)
  {
    var t;
    match s.calls[j]
    case Called =>
      var a := Count(j, true, 1);
      t := SendingSpoils(Apply(s, a), j, n);
      RunCons(s, a, t);
      t := [a] + t;
    case Sending(_, _, _) => t := SendingSpoils(s, j, n);
    case Backed(_) =>
      var a := AddDevice(j, false);
      t := CloseSpoils(Apply(s, a), j, n);
      RunCons(s, a, t);
      t := [a] + t;
    case Closing(_, _) => t := CloseSpoils(s, j, n);
    assert CanRun(s, t) && ByOthers(t, i) && !Accepts(Exec(s, t).q, n);
  }

  lemma HarmlessStep(s: State, a: Step, i: nat, n: nat)
    requires Accepts(s.q, n) && !Threatened(s, i, n) && Enabled(s, a) && OfCall(a) && a.i != i
    ensures Accepts(Apply(s, a).q, n) && !Threatened(Apply(s, a), i, n)
  {
    var u := Apply(s, a);
    assert !Threatens(s.calls[a.i], n);
    forall j | 0 <= j < |u.calls| && j != i ensures !Threatens(u.calls[j], n) {
      assert !Threatens(s.calls[j], n);
    }
  }

  lemma {:induction false} HarmlessRun(s: State, t: seq<Step>, i: nat, n: nat)
    requires Accepts(s.q, n) && !Threatened(s, i, n) && CanRun(s, t) && ByOthers(t, i)
    ensures Accepts(Exec(s, t).q, n)
    decreases t
  {
    if t != [] {
      assert t[0] in t && forall a :: a in t[1..] ==> a in t;
      HarmlessStep(s, t[0], i, n);
      HarmlessRun(Apply(s, t[0]), t[1..], i, n);
    }
  }

  /** The exact condition: a call that has sent all its descriptors, none of which is missing,
      can have its netdev_add refused because of the others iff one of them has still to send,
      to fail, or to take back one of these names. */
  lemma SpoiltExactly(s: State, i: nat, n: nat)
    requires Full(s, i, n)
    ensures CanBeSpoilt(s, i, n) <==> Threatened(s, i, n)
  {
    if Threatened(s, i, n) {
      var j :| 0 <= j < |s.calls| && j != i && Threatens(s.calls[j], n);
      ThreatSpoils(s, i, j, n);
    } else {
      forall t: seq<Step> | CanRun(s, t) && ByOthers(t, i) ensures Accepts(Exec(s, t).q, n) {
        HarmlessRun(s, t, i, n);
      }
    }
  }

  // ---------- one call on its own ----------

  function NextStep(pc: Pc, i: nat, a: Attempt): Step
    requires !pc.Returned?
  {
    match pc
    case Called => Count(i, Starts(a), a.queues)
    case Sending(n, k, half) =>
      if k >= n then AddNetdev(i, NetdevAdd !in a.fails, a.eaten)
      else if !half then (if SentOf(k, a.fails).0 then PassTap(i) else Fail(i))
      else if SentOf(k, a.fails).1 then PassVhost(i) else Fail(i)
    case Backed(_) => AddDevice(i, DeviceAdd !in a.fails)
    case Closing(_, k) => Close(i, CloseName(k) !in a.fails)
  }

  /** Phase, and what is left of its loop. */
  function Left(pc: Pc): (nat, nat) {
    match pc
    case Called => (4, 0)
    case Sending(n, k, half) => (3, if k >= n then 0 else 2 * (n - k) + if half then 0 else 1)
    case Backed(_) => (2, 0)
    case Closing(taps, k) => (1, if k >= taps then 0 else taps - k)
    case Returned(_) => (0, 0)
  }

  function Alone(s: State, i: nat, a: Attempt): (r: State)
    requires i < |s.calls|
    decreases Left(s.calls[i]).0, Left(s.calls[i]).1
  {
    if s.calls[i].Returned? then s else Alone(Apply(s, NextStep(s.calls[i], i, a)), i, a)
  }

  predicate EndsAs(s: State, i: nat, table: set<Name>, netdev: bool, device: bool, ok: bool) {
    i < |s.calls| && s.q == Qemu(table, netdev, device) && s.calls[i] == Returned(ok)
  }

  function ClosedFrom(k: nat, taps: nat, fails: set<Point>): set<Name> {
    set j | k <= j < taps && CloseName(j) !in fails :: Tap(j)
  }

  lemma {:induction false} CloseAlone(s: State, i: nat, taps: nat, k: nat, a: Attempt)
    requires i < |s.calls| && s.calls[i] == RollBack(taps, k)
    ensures EndsAs(Alone(s, i, a), i, s.q.table - ClosedFrom(k, taps, a.fails), s.q.netdev, s.q.device, false)
    decreases taps - k
  {
    if k < taps {
      var s1 := Apply(s, NextStep(s.calls[i], i, a));
      assert Alone(s, i, a) == Alone(s1, i, a);
      CloseAlone(s1, i, taps, k + 1, a);
      assert ClosedFrom(k, taps, a.fails)
          == ClosedFrom(k + 1, taps, a.fails) + if CloseName(k) !in a.fails then {Tap(k)} else {};
    } else {
      assert ClosedFrom(k, taps, a.fails) == {};
    }
  }

  function TapsFrom(k: nat, n: nat): set<Name> { set j | k <= j < n :: Tap(j) }

  function VhostsFrom(k: nat, n: nat): set<Name> { set j | k <= j < n :: Vhost(j) }

  /** The state when the loop over the queues is left. */
  function LoopEnd(s: State, i: nat, k: nat, n: nat, fails: set<Point>): State
    requires i < |s.calls| && k <= n
  {
    var (taps, vhosts) := Sent(k, n, fails);
    State(s.q.(table := s.q.table + TapsFrom(k, taps) + VhostsFrom(k, vhosts)),
          s.calls[i := if (taps, vhosts) == (n, n) then Sending(n, n, false) else RollBack(taps, 0)])
  }

  lemma NothingFrom(k: nat)
    ensures TapsFrom(k, k) == {} && VhostsFrom(k, k) == {}
  {
  }

  lemma SetsFrom(k: nat, taps: nat, vhosts: nat)
    requires k < taps && k < vhosts
    ensures TapsFrom(k, taps) == {Tap(k)} + TapsFrom(k + 1, taps)
    ensures VhostsFrom(k, vhosts) == {Vhost(k)} + VhostsFrom(k + 1, vhosts)
  {
  }

  /** The state after one queue, or after the failure in it. */
  function QueueEnd(s: State, i: nat, k: nat, n: nat, fails: set<Point>): State
    requires i < |s.calls|
  {
    var (tap, vhost) := SentOf(k, fails);
    if vhost then
      State(s.q.(table := s.q.table + {Tap(k)} + {Vhost(k)}), s.calls[i := Sending(n, k + 1, false)])
    else if tap then State(s.q.(table := s.q.table + {Tap(k)}), s.calls[i := RollBack(k + 1, 0)])
    else s.(calls := s.calls[i := RollBack(k, 0)])
  }

  lemma QueueAlone(s: State, i: nat, k: nat, n: nat, a: Attempt)
    requires i < |s.calls| && s.calls[i] == Sending(n, k, false) && k < n
    ensures Alone(s, i, a) == Alone(QueueEnd(s, i, k, n, a.fails), i, a)
  {
    var s1 := Apply(s, NextStep(s.calls[i], i, a));
    assert Alone(s, i, a) == Alone(s1, i, a);
    if SentOf(k, a.fails).0 {
      var s2 := Apply(s1, NextStep(s1.calls[i], i, a));
      assert Alone(s1, i, a) == Alone(s2, i, a);
      assert s2.calls == QueueEnd(s, i, k, n, a.fails).calls;
    }
  }

  lemma LoopEndIs(s: State, i: nat, k: nat, n: nat, fails: set<Point>)
    requires i < |s.calls| && k < n
    ensures LoopEnd(s, i, k, n, fails)
         == if SentOf(k, fails).1 then LoopEnd(QueueEnd(s, i, k, n, fails), i, k + 1, n, fails)
            else QueueEnd(s, i, k, n, fails)
  {
    SentStep(k, n, fails);
    NothingFrom(k);
    assert TapsFrom(k, k + 1) == {Tap(k)};
    if SentOf(k, fails).1 {
      LoopSplits(s, i, k, n, fails);
    }
  }

  lemma LoopSplits(s: State, i: nat, k: nat, n: nat, fails: set<Point>)
    requires i < |s.calls| && k < n && SentOf(k, fails) == (true, true)
    ensures LoopEnd(s, i, k, n, fails) == LoopEnd(QueueEnd(s, i, k, n, fails), i, k + 1, n, fails)
  {
    SentStep(k, n, fails);
    SentFacts(k + 1, n, fails);
    var (taps, vhosts) := Sent(k, n, fails);
    SetsFrom(k, taps, vhosts);
    assert s.q.table + TapsFrom(k, taps) + VhostsFrom(k, vhosts)
        == s.q.table + {Tap(k)} + {Vhost(k)} + TapsFrom(k + 1, taps) + VhostsFrom(k + 1, vhosts);
  }

  /** The loop over the queues. */
  lemma {:induction false} LoopAlone(s: State, i: nat, k: nat, n: nat, a: Attempt)
    requires i < |s.calls| && s.calls[i] == Sending(n, k, false) && k <= n
    ensures Alone(s, i, a) == Alone(LoopEnd(s, i, k, n, a.fails), i, a)
    decreases n - k
  {
    if k == n {
      NothingFrom(k);
      assert LoopEnd(s, i, k, n, a.fails) == s;
    } else {
      QueueAlone(s, i, k, n, a);
      LoopEndIs(s, i, k, n, a.fails);
      if SentOf(k, a.fails).1 {
        LoopAlone(QueueEnd(s, i, k, n, a.fails), i, k + 1, n, a);
      }
    }
  }

  /** From netdev_add on. */
  lemma FinishAlone(s: State, i: nat, n: nat, a: Attempt)
    requires i < |s.calls| && s.calls[i] == Sending(n, n, false) && Names(n) <= s.q.table
    ensures var gets := NetdevAdd !in a.fails && !s.q.netdev;
            var plugs := gets && DeviceAdd !in a.fails && !s.q.device;
            var left := if gets then s.q.table - Names(n) else s.q.table - a.eaten;
            EndsAs(Alone(s, i, a), i, if plugs then left else left - ClosedFrom(0, n, a.fails),
                   s.q.netdev || gets, s.q.device || plugs, plugs)
  {
    var s1 := Apply(s, AddNetdev(i, NetdevAdd !in a.fails, a.eaten));
    assert Alone(s, i, a) == Alone(s1, i, a);
    if s1.calls[i].Backed? {
      var s2 := Apply(s1, AddDevice(i, DeviceAdd !in a.fails));
      assert Alone(s1, i, a) == Alone(s2, i, a);
      if s2.calls[i] != Returned(true) {
        CloseAlone(s2, i, n, 0, a);
      }
    } else {
      CloseAlone(s1, i, n, 0, a);
    }
  }

  lemma SetsAre(taps: nat, vhosts: nat, fails: set<Point>)
    ensures TapsFrom(0, taps) == TapSet(taps) && VhostsFrom(0, vhosts) == VhostSet(vhosts)
    ensures ClosedFrom(0, taps, fails) == Closed(taps, fails)
  {
  }

  /** A plug that nothing overlaps is the plug of `TapPlug`, for every queue count and every
      set of failing calls. */
  lemma AloneIsAtomic(s: State, i: nat, a: Attempt)
    requires i < |s.calls| && s.calls[i] == Called
    ensures var r := After(s.q, a); EndsAs(Alone(s, i, a), i, r.table, r.netdev, r.device, GetsDevice(s.q, a))
  {
    var s1 := Apply(s, Count(i, Starts(a), a.queues));
    assert Alone(s, i, a) == Alone(s1, i, a);
    var (taps, vhosts) := SentBy(a);
    SetsAre(taps, vhosts, a.fails);
    if Starts(a) {
      LoopAlone(s1, i, 0, a.queues, a);
      var s2 := LoopEnd(s1, i, 0, a.queues, a.fails);
      if SendsAll(a) {
        FinishAlone(s2, i, a.queues, a);
      } else {
        CloseAlone(s2, i, taps, 0, a);
      }
    } else {
      assert Closed(0, a.fails) == {} && TapSet(0) == {} && VhostSet(0) == {};
    }
  }

  /** An unplug whose halves nothing overlaps is the unplug of `TapPlug`: the device goes, then
      the netdev, and the descriptor table is not touched. */
  lemma UnplugAloneIsAtomic(s: State, deviceOk: bool, netdevOk: bool)
    ensures var s1 := if deviceOk then Apply(s, DeleteDevice) else s;
            var u := if deviceOk && netdevOk then Apply(s1, DeleteNetdev) else s1;
            && u == State(Unplugged(s.q, deviceOk, netdevOk), s.calls)
            && u.q.table == s.q.table && (deviceOk ==> !u.q.device) && (deviceOk && netdevOk ==> !u.q.netdev)
  {
  }
}

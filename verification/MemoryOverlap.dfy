/** SetMemory of driver/driver.go takes no lock: any number of calls of it that overlap, one
    step for each monitor call. `MemoryHotplug` is about one call at a time. */
module MemoryOverlap {
  import opened Text
  import opened MemoryHotplug

  /** Where a call is. `size` is the difference it computed, `n` the index it chose. */
  datatype Pc =
    | Called(bytes: nat)
    | Summed(size: nat)               // past query-memory-size-summary
    | Chose(size: nat, n: int)        // past query-memory-devices
    | Backed(size: nat, n: int)       // past object-add
    | Refused(size: nat, n: int)      // device_add refused
    | Returned(r: Result, size: nat)  // with what it plugged

  datatype State = State(q: Qemu, calls: seq<Pc>)

  /** `ok` is whether a monitor call gets through. */
  datatype Step =
    | Begin(bytes: nat)
    | Summary(i: nat, ok: bool)
    | Devices(i: nat, ok: bool)
    | Backend(i: nat, ok: bool)
    | Device(i: nat, ok: bool)
    | Rollback(i: nat, ok: bool)

  predicate InUse(q: Qemu, memdev: string) { exists k :: 0 <= k < |q.dimms| && q.dimms[k].memdev == memdev }

  /** QEMU accepts the DIMM: its id is free, its backend is there and not in use. */
  predicate Accepts(q: Qemu, n: int) {
    !HasDimm(q.dimms, DimmId(n)) && MemId(n) in q.backends && !InUse(q, MemId(n))
  }

  predicate Enabled(s: State, a: Step) {
    a.Begin? || (a.i < |s.calls| &&
                 match a
                 case Summary(i, _) => s.calls[i].Called?
                 case Devices(i, _) => s.calls[i].Summed?
                 case Backend(i, _) => s.calls[i].Chose?
                 case Device(i, _) => s.calls[i].Backed?
                 case Rollback(i, _) => s.calls[i].Refused?)
  }

  predicate Of(a: Step, i: nat) { !a.Begin? && a.i == i }

  function Answer(q: Qemu, bytes: nat, ok: bool): Pc {
    if !ok then Returned(Failed, 0)
    else if bytes == Total(q) then Returned(Ok, 0)
    else if bytes < Total(q) then Returned(NotSupported, 0)
    else Summed(bytes - Total(q))
  }

  /** What a step makes of QEMU and of the call it belongs to. */
  function Effect(q: Qemu, pc: Pc, a: Step): (Qemu, Pc)
    requires !a.Begin? && Enabled(State(q, [pc]), a.(i := 0))
  {
    match a
    case Summary(_, ok) => (q, Answer(q, pc.bytes, ok))
    case Devices(_, ok) => (q, if ok then Chose(pc.size, Next(q)) else Returned(Failed, 0))
    case Backend(_, ok) =>
      if ok && MemId(pc.n) !in q.backends then (WithBackend(q, MemId(pc.n), pc.size), Backed(pc.size, pc.n))
      else (q, Returned(Failed, 0))
    case Device(_, ok) =>
      if ok && Accepts(q, pc.n) then
        (WithDimm(q, Dimm(DimmId(pc.n), MemId(pc.n), q.backends[MemId(pc.n)])), Returned(Ok, pc.size))
      else (q, Refused(pc.size, pc.n))
    case Rollback(_, ok) =>
      (if ok && !InUse(q, MemId(pc.n)) then q.(backends := q.backends - {MemId(pc.n)}) else q, Returned(Failed, 0))
  }

  function Apply(s: State, a: Step): State
    requires Enabled(s, a)
  {
    match a
    case Begin(bytes) => s.(calls := s.calls + [Called(bytes)])
    case _ =>
      var e := Effect(s.q, s.calls[a.i], a);
      State(e.0, s.calls[a.i := e.1])
  }

  predicate CanRun(s: State, t: seq<Step>)
    decreases t
  {
    t == [] || (Enabled(s, t[0]) && CanRun(Apply(s, t[0]), t[1..]))
  }

  function Exec(s: State, t: seq<Step>): State
    requires CanRun(s, t)
    decreases t
  {
    if t == [] then s else Exec(Apply(s, t[0]), t[1..])
  }

  lemma RunCons(s: State, a: Step, t: seq<Step>)
    requires Enabled(s, a) && CanRun(Apply(s, a), t)
    ensures CanRun(s, [a] + t) && Exec(s, [a] + t) == Exec(Apply(s, a), t)
  {
    assert ([a] + t)[1..] == t;
  }

  lemma {:induction false} RunConcat(s: State, t: seq<Step>, u: seq<Step>)
    requires CanRun(s, t) && CanRun(Exec(s, t), u)
    ensures CanRun(s, t + u) && Exec(s, t + u) == Exec(Exec(s, t), u)
    decreases t
  {
    if t == [] {
      assert t + u == u;
    } else {
      RunConcat(Apply(s, t[0]), t[1..], u);
      RunCons(s, t[0], t[1..] + u);
      assert t + u == [t[0]] + (t[1..] + u);
    }
  }

  // ---------- who owns a backend ----------

  /** The call has a backend in QEMU and no DIMM yet. */
  predicate Holds(pc: Pc) { pc.Backed? || pc.Refused? }

  predicate Owns(q: Qemu, pc: Pc)
    requires Holds(pc)
  {
    MemId(pc.n) in q.backends && q.backends[MemId(pc.n)] == pc.size && !InUse(q, MemId(pc.n))
  }

  predicate Positive(pc: Pc) { (pc.Summed? || pc.Chose? || Holds(pc)) ==> pc.size > 0 }

  /** Every DIMM has its backend; every call past object-add has one that is its own. */
  ghost predicate Inv(s: State) {
    && (forall k :: 0 <= k < |s.q.dimms| ==> s.q.dimms[k].memdev in s.q.backends)
    && (forall i :: 0 <= i < |s.calls| ==> Positive(s.calls[i]) && (Holds(s.calls[i]) ==> Owns(s.q, s.calls[i])))
    && (forall i, j :: 0 <= i < j < |s.calls| && Holds(s.calls[i]) && Holds(s.calls[j]) ==>
          s.calls[i].n != s.calls[j].n)
  }

  lemma InUseSnoc(q: Qemu, d: Dimm, m: string)
    ensures InUse(WithDimm(q, d), m) <==> InUse(q, m) || d.memdev == m
  {
    var r := WithDimm(q, d);
    assert r.dimms[|q.dimms|] == d;
    if InUse(q, m) {
      var k :| 0 <= k < |q.dimms| && q.dimms[k].memdev == m;
      assert r.dimms[k].memdev == m;
    }
  }

  /** A step of one call leaves what another call owns alone. */
  lemma OthersKeep(q: Qemu, pc: Pc, a: Step, other: Pc)
    requires !a.Begin? && Enabled(State(q, [pc]), a.(i := 0))
    requires Holds(other) && Owns(q, other) && (Holds(pc) ==> pc.n != other.n)
    ensures Owns(Effect(q, pc, a).0, other)
    ensures Holds(Effect(q, pc, a).1) ==> Effect(q, pc, a).1.n != other.n
  {
    if Holds(pc) && MemId(pc.n) == MemId(other.n) {
      MemIdInjective(pc.n, other.n);
    }
    if a.Device? && Accepts(q, pc.n) {
      InUseSnoc(q, Dimm(DimmId(pc.n), MemId(pc.n), q.backends[MemId(pc.n)]), MemId(other.n));
    }
  }

  /** The step itself leaves its call with a backend of its own. */
  lemma OwnKeeps(q: Qemu, pc: Pc, a: Step)
    requires !a.Begin? && Enabled(State(q, [pc]), a.(i := 0))
    requires forall k :: 0 <= k < |q.dimms| ==> q.dimms[k].memdev in q.backends
    requires Positive(pc) && (Holds(pc) ==> Owns(q, pc))
    ensures var e := Effect(q, pc, a);
            && (forall k :: 0 <= k < |e.0.dimms| ==> e.0.dimms[k].memdev in e.0.backends)
            && Positive(e.1) && (Holds(e.1) ==> Owns(e.0, e.1))
  {
  }

  lemma InvStep(s: State, a: Step)
    requires Inv(s) && Enabled(s, a)
    ensures Inv(Apply(s, a))
  {
    if !a.Begin? {
      var pc := s.calls[a.i];
      var e := Effect(s.q, pc, a);
      OwnKeeps(s.q, pc, a);
      forall j | 0 <= j < |s.calls| && j != a.i && Holds(s.calls[j])
        ensures Owns(e.0, s.calls[j]) && (Holds(e.1) ==> e.1.n != s.calls[j].n)
      {
        OthersKeep(s.q, pc, a, s.calls[j]);
      }
    }
  }

  /** In every interleaving no two calls own the same backend, so that a roll-back removes
      the caller's own backend and never one that is in use. */
  lemma {:induction false} InvRun(s: State, t: seq<Step>)
    requires Inv(s) && CanRun(s, t)
    ensures Inv(Exec(s, t))
    decreases t
  {
    if t != [] {
      InvStep(s, t[0]);
      InvRun(Apply(s, t[0]), t[1..]);
    }
  }

  lemma DimmIdInjective(m: int, n: int)
    requires DimmId(m) == DimmId(n)
    ensures m == n
  {
    assert DimmId(m)[4..] == Itoa(m) && DimmId(n)[4..] == Itoa(n);
    ItoaInjective(m, n);
  }

  lemma UndisturbedStep(s: State, a: Step, i: nat)
    requires Inv(s) && Enabled(s, a) && !Of(a, i) && i < |s.calls| && Holds(s.calls[i])
    ensures i < |Apply(s, a).calls| && Apply(s, a).calls[i] == s.calls[i]
    ensures var id := DimmId(s.calls[i].n); HasDimm(Apply(s, a).q.dimms, id) == HasDimm(s.q.dimms, id)
  {
    if a.Device? && Accepts(s.q, s.calls[a.i].n) {
      var n := s.calls[a.i].n;
      assert n != s.calls[i].n;
      if DimmId(n) == DimmId(s.calls[i].n) {
        DimmIdInjective(n, s.calls[i].n);
      }
      SnocIds(s.q.dimms, Dimm(DimmId(n), MemId(n), s.q.backends[MemId(n)]), DimmId(s.calls[i].n));
    }
  }

  /** From its object-add on a call ends as if it were alone: whatever others do, its backend
      stays and its device id is taken only if it was before. */
  lemma {:induction false} Undisturbed(s: State, t: seq<Step>, i: nat)
    requires Inv(s) && CanRun(s, t) && i < |s.calls| && Holds(s.calls[i])
    requires forall a :: a in t ==> !Of(a, i)
    ensures i < |Exec(s, t).calls| && Exec(s, t).calls[i] == s.calls[i] && Owns(Exec(s, t).q, s.calls[i])
    ensures Accepts(Exec(s, t).q, s.calls[i].n) <==> Accepts(s.q, s.calls[i].n)
    decreases t
  {
    if t != [] {
      assert t[0] in t && forall a :: a in t[1..] ==> a in t;
      UndisturbedStep(s, t[0], i);
      InvStep(s, t[0]);
      Undisturbed(Apply(s, t[0]), t[1..], i);
    }
  }

  // ---------- the same index ----------

  predicate On(pc: Pc, n: int) { (pc.Chose? || Holds(pc)) && pc.n == n }

  predicate Won(pc: Pc) { pc.Returned? && pc.r == Ok }

  /** Two calls that chose the index `n`: not both have succeeded, and if one has, a DIMM
      sits on the backend. */
  predicate Rivals(s: State, i: nat, j: nat, n: int) {
    && i < |s.calls| && j < |s.calls| && i != j
    && (s.calls[i].Returned? || On(s.calls[i], n)) && (s.calls[j].Returned? || On(s.calls[j], n))
    && !(Won(s.calls[i]) && Won(s.calls[j]))
    && (Won(s.calls[i]) || Won(s.calls[j]) ==> InUse(s.q, MemId(n)))
  }

  lemma InUseStays(s: State, a: Step, m: string)
    requires Enabled(s, a) && InUse(s.q, m)
    ensures InUse(Apply(s, a).q, m)
  {
    if a.Device? && Accepts(s.q, s.calls[a.i].n) {
      InUseSnoc(s.q, Dimm(DimmId(s.calls[a.i].n), MemId(s.calls[a.i].n), s.q.backends[MemId(s.calls[a.i].n)]), m);
    }
  }

  lemma RivalsStep(s: State, a: Step, i: nat, j: nat, n: int)
    requires Inv(s) && Enabled(s, a) && Rivals(s, i, j, n)
    ensures Rivals(Apply(s, a), i, j, n)
  {
    if InUse(s.q, MemId(n)) {
      InUseStays(s, a, MemId(n));
    } else if a.Device? && Accepts(s.q, s.calls[a.i].n) {
      var m := s.calls[a.i].n;
      InUseSnoc(s.q, Dimm(DimmId(m), MemId(m), s.q.backends[MemId(m)]), MemId(n));
    }
  }

  /** Of two calls that chose the same index at most one succeeds, in every interleaving. */
  lemma {:induction false} SameIndexOneWins(s: State, t: seq<Step>, i: nat, j: nat, n: int)
    requires Inv(s) && CanRun(s, t) && Rivals(s, i, j, n)
    ensures Rivals(Exec(s, t), i, j, n)
    decreases t
  {
    if t != [] {
      RivalsStep(s, t[0], i, j, n);
      InvStep(s, t[0]);
      SameIndexOneWins(Apply(s, t[0]), t[1..], i, j, n);
    }
  }

  /** Two calls that both look for the highest index before either has plugged never both
      succeed, whatever happens then. */
  lemma BothListFirst(s: State, i: nat, j: nat, t: seq<Step>)
    requires Inv(s) && i < |s.calls| && j < |s.calls| && i != j && s.calls[i].Summed? && s.calls[j].Summed?
    requires CanRun(s, [Devices(i, true)] + ([Devices(j, true)] + t))
    ensures var u := Exec(s, [Devices(i, true)] + ([Devices(j, true)] + t));
            i < |u.calls| && j < |u.calls| && !(Won(u.calls[i]) && Won(u.calls[j]))
  {
    var s1 := Apply(s, Devices(i, true));
    assert ([Devices(i, true)] + ([Devices(j, true)] + t))[1..] == [Devices(j, true)] + t;
    assert ([Devices(j, true)] + t)[1..] == t;
    InvStep(s, Devices(i, true));
    InvStep(s1, Devices(j, true));
    SameIndexOneWins(Apply(s1, Devices(j, true)), t, i, j, Next(s.q));
  }

  // ---------- sums ----------

  function Part(pc: Pc): nat { if pc.Returned? then pc.size else 0 }

  /** What the calls have plugged. */
  function Plugged(calls: seq<Pc>): nat {
    if calls == [] then 0 else Plugged(calls[..|calls| - 1]) + Part(calls[|calls| - 1])
  }

  lemma {:induction false} PluggedUpdate(calls: seq<Pc>, i: nat, pc: Pc)
    requires i < |calls|
    ensures Plugged(calls[i := pc]) == Plugged(calls) - Part(calls[i]) + Part(pc)
  {
    var last := |calls| - 1;
    var u := calls[i := pc];
    if i == last {
      assert u[..last] == calls[..last];
    } else {
      assert u[..last] == calls[..last][i := pc];
      PluggedUpdate(calls[..last], i, pc);
    }
  }

  lemma SumStep(s: State, a: Step)
    requires Inv(s) && Enabled(s, a)
    ensures Sum(Apply(s, a).q) - Plugged(Apply(s, a).calls) == Sum(s.q) - Plugged(s.calls)
  {
    if a.Begin? {
      assert Apply(s, a).calls[..|s.calls|] == s.calls;
    } else {
      var e := Effect(s.q, s.calls[a.i], a);
      PluggedUpdate(s.calls, a.i, e.1);
      if a.Device? && e.1.Returned? {
        assert e.0.dimms[..|s.q.dimms|] == s.q.dimms;
      }
    }
  }

  /** Nothing is lost and nothing counted twice: in every interleaving the memory is what it
      was and what the calls that succeeded plugged. */
  lemma {:induction false} Conserved(s: State, t: seq<Step>)
    requires Inv(s) && CanRun(s, t)
    ensures Sum(Exec(s, t).q) - Plugged(Exec(s, t).calls) == Sum(s.q) - Plugged(s.calls)
    decreases t
  {
    if t != [] {
      SumStep(s, t[0]);
      InvStep(s, t[0]);
      Conserved(Apply(s, t[0]), t[1..]);
    }
  }

  lemma GrowStep(s: State, a: Step)
    requires Inv(s) && Enabled(s, a)
    ensures |s.q.dimms| <= |Apply(s, a).q.dimms| && Sum(s.q) <= Sum(Apply(s, a).q)
    ensures |s.q.dimms| == |Apply(s, a).q.dimms| <==> Sum(s.q) == Sum(Apply(s, a).q)
  {
    if a.Device? && Accepts(s.q, s.calls[a.i].n) {
      assert Apply(s, a).q.dimms[..|s.q.dimms|] == s.q.dimms;
    }
  }

  /** The sum tells exactly whether a DIMM has been plugged. */
  lemma {:induction false} GrowRun(s: State, t: seq<Step>)
    requires Inv(s) && CanRun(s, t)
    ensures var u := Exec(s, t); |s.q.dimms| <= |u.q.dimms| && Sum(s.q) <= Sum(u.q)
                                 && (|s.q.dimms| == |u.q.dimms| <==> Sum(s.q) == Sum(u.q))
    decreases t
  {
    if t != [] {
      GrowStep(s, t[0]);
      InvStep(s, t[0]);
      GrowRun(Apply(s, t[0]), t[1..]);
    }
  }

  predicate Wants(pc: Pc, size: nat) { (pc.Summed? || pc.Chose? || Holds(pc)) && pc.size == size }

  lemma {:induction false} SizeStays(s: State, t: seq<Step>, i: nat, size: nat)
    requires CanRun(s, t) && i < |s.calls| && (Wants(s.calls[i], size) || s.calls[i].Returned?)
    ensures i < |Exec(s, t).calls| && (Wants(Exec(s, t).calls[i], size) || Exec(s, t).calls[i].Returned?)
    decreases t
  {
    if t != [] {
      SizeStays(Apply(s, t[0]), t[1..], i, size);
    }
  }

  lemma SmallTotal(q: Qemu)
    requires Sum(q) < WORD
    ensures Total(q) == Sum(q)
  {
  }

  /** A call that asks the summary in `s` and gets its DIMM in `u` leaves the machine with the
      memory asked for exactly when no other call has plugged a DIMM in between; otherwise it
      overshoots by what they plugged. */
  lemma ReachesExactly(s: State, t: seq<Step>, i: nat)
    requires Inv(s) && Sum(s.q) < WORD && i < |s.calls| && s.calls[i].Called? && s.calls[i].bytes > Sum(s.q)
    requires CanRun(Apply(s, Summary(i, true)), t)
    requires var u := Exec(Apply(s, Summary(i, true)), t);
             Enabled(u, Device(i, true)) && Accepts(u.q, u.calls[i].n)
    ensures var u := Exec(Apply(s, Summary(i, true)), t);
            var v := Apply(u, Device(i, true));
            && Won(v.calls[i])
            && Sum(v.q) == s.calls[i].bytes + (Sum(u.q) - Sum(s.q))
            && (Sum(v.q) == s.calls[i].bytes <==> |u.q.dimms| == |s.q.dimms|)
  {
    var s1 := Apply(s, Summary(i, true));
    SmallTotal(s.q);
    InvStep(s, Summary(i, true));
    SizeStays(s1, t, i, s.calls[i].bytes - Sum(s.q));
    InvRun(s1, t);
    GrowRun(s1, t);
    var u := Exec(s1, t);
    var v := Apply(u, Device(i, true));
    assert v.q.dimms[..|u.q.dimms|] == u.q.dimms;
  }

  // ---------- one call on its own ----------

  /** The next step of a call of `MemoryHotplug`. */
  function NextStep(pc: Pc, i: nat, c: Call): Step
    requires !pc.Returned?
  {
    match pc
    case Called(_) => Summary(i, c.summaryOk)
    case Summed(_) => Devices(i, c.devicesOk)
    case Chose(_, _) => Backend(i, c.backendOk)
    case Backed(_, _) => Device(i, c.deviceOk)
    case Refused(_, _) => Rollback(i, c.rollbackOk)
  }

  function Left(pc: Pc): nat {
    match pc
    case Called(_) => 5
    case Summed(_) => 4
    case Chose(_, _) => 3
    case Backed(_, _) => 2
    case Refused(_, _) => 1
    case Returned(_, _) => 0
  }

  function Alone(s: State, i: nat, c: Call): (r: State)
    requires i < |s.calls|
    ensures i < |r.calls| && r.calls[i].Returned?
    decreases Left(s.calls[i])
  {
    if s.calls[i].Returned? then s else Alone(Apply(s, NextStep(s.calls[i], i, c)), i, c)
  }

  predicate EndsAs(s: State, i: nat, r: (Qemu, Result)) {
    i < |s.calls| && s.q == r.0 && s.calls[i].Returned? && s.calls[i].r == r.1
  }

  lemma AloneFromBackend(s: State, i: nat, c: Call)
    requires Inv(s) && i < |s.calls| && s.calls[i].Chose?
    ensures var n, size := s.calls[i].n, s.calls[i].size;
            EndsAs(Alone(s, i, c), i, Added(s.q, MemId(n), DimmId(n), size, c))
  {
    var n, size := s.calls[i].n, s.calls[i].size;
    var s1 := Apply(s, Backend(i, c.backendOk));
    InvStep(s, Backend(i, c.backendOk));
    assert Alone(s, i, c) == Alone(s1, i, c);
    if s1.calls[i].Backed? {
      var s2 := Apply(s1, Device(i, c.deviceOk));
      InvStep(s1, Device(i, c.deviceOk));
      assert Alone(s1, i, c) == Alone(s2, i, c);
      if s2.calls[i].Refused? {
        var s3 := Apply(s2, Rollback(i, c.rollbackOk));
        assert Alone(s2, i, c) == Alone(s3, i, c) == s3;
        assert c.rollbackOk ==> s3.q.backends == s.q.backends;
      }
    }
  }

  lemma AnswerIs(q: Qemu, c: Call)
    ensures var pc := Answer(q, c.bytes, c.summaryOk);
            if pc.Returned? then (After(q, c), ResultOf(q, c)) == (q, pc.r)
            else if !c.devicesOk then (After(q, c), ResultOf(q, c)) == (q, Failed)
            else (After(q, c), ResultOf(q, c)) == Added(q, MemId(Next(q)), DimmId(Next(q)), pc.size, c)
  {
  }

  lemma AloneFromList(s: State, i: nat, c: Call)
    requires Inv(s) && i < |s.calls| && s.calls[i].Summed?
    ensures EndsAs(Alone(s, i, c), i,
                   if c.devicesOk then Added(s.q, MemId(Next(s.q)), DimmId(Next(s.q)), s.calls[i].size, c)
                   else (s.q, Failed))
  {
    var s1 := Apply(s, Devices(i, c.devicesOk));
    InvStep(s, Devices(i, c.devicesOk));
    assert Alone(s, i, c) == Alone(s1, i, c);
    if c.devicesOk {
      AloneFromBackend(s1, i, c);
    }
  }

  /** A call that no other overlaps is the call of `MemoryHotplug`, whichever of its monitor
      calls fail. */
  lemma AloneIsAtomic(s: State, i: nat, c: Call)
    requires Inv(s) && i < |s.calls| && s.calls[i] == Called(c.bytes)
    ensures EndsAs(Alone(s, i, c), i, (After(s.q, c), ResultOf(s.q, c)))
  {
    var s1 := Apply(s, Summary(i, c.summaryOk));
    InvStep(s, Summary(i, c.summaryOk));
    assert Alone(s, i, c) == Alone(s1, i, c);
    AnswerIs(s.q, c);
    if s1.calls[i].Summed? {
      AloneFromList(s1, i, c);
    }
  }

  // ---------- overshooting ----------

  /** The rest of a call, from the second query on. */
  function Rest(i: nat): seq<Step> { [Devices(i, true), Backend(i, true), Device(i, true)] }

  function Grown(q: Qemu, size: nat): Qemu {
    WithDimm(WithBackend(q, MemId(Next(q)), size), Dimm(DimmId(Next(q)), MemId(Next(q)), size))
  }

  /** If nobody interrupts it, it plugs what it computed. */
  lemma GrowsAlone(s: State, i: nat)
    requires Inv(s) && i < |s.calls| && s.calls[i].Summed? && Paired(s.q) && !Exhausted(s.q)
    ensures CanRun(s, Rest(i))
    ensures Exec(s, Rest(i)) == State(Grown(s.q, s.calls[i].size), s.calls[i := Returned(Ok, s.calls[i].size)])
  {
    PairedNeverCollides(s.q);
    var s1 := Apply(s, Devices(i, true));
    var s2 := Apply(s1, Backend(i, true));
    assert Accepts(s2.q, Next(s.q));
    RunCons(s2, Device(i, true), []);
    RunCons(s1, Backend(i, true), [Device(i, true)]);
    RunCons(s, Devices(i, true), [Backend(i, true), Device(i, true)]);
  }

  lemma GrownIsAfter(q: Qemu, size: nat, c: Call)
    requires !Stuck(q) && !HasDimm(q.dimms, DimmId(Next(q))) && size > 0 && Clean(c) && c.bytes == Total(q) + size
    ensures After(q, c) == Grown(q, size) && !Leaks(q, c)
  {
  }

  lemma GrownIsPaired(q: Qemu, size: nat)
    requires Paired(q) && size > 0 && !Exhausted(q)
    ensures Paired(Grown(q, size))
  {
    var c := Call(Total(q) + size, true, true, true, true, true);
    PairedNeverCollides(q);
    GrownIsAfter(q, size, c);
    PairedStep(q, c);
  }

  lemma GrownFacts(q: Qemu, size: nat)
    requires Highest(q.dimms) + 1 < MAX_INT
    ensures Sum(Grown(q, size)) == Sum(q) + size && !Exhausted(q) && !Exhausted(Grown(q, size))
  {
    var n := Next(q);
    var d := Dimm(DimmId(n), MemId(n), size);
    assert (q.dimms + [d])[..|q.dimms|] == q.dimms;
    IndexOfDimmId(n);
  }

  /** Two calls that both ask for the summary before either has plugged, the second looking
      for the highest index only afterwards, both succeed: both differences are plugged. */
  lemma BothPlug(s: State, i: nat, j: nat, zi: nat, zj: nat)
    requires Inv(s) && i < |s.calls| && j < |s.calls| && i != j && zi > 0 && zj > 0
    requires s.calls[i] == Called(Total(s.q) + zi) && s.calls[j] == Called(Total(s.q) + zj)
    requires Paired(s.q) && Highest(s.q.dimms) + 1 < MAX_INT
    ensures var t := [Summary(i, true), Summary(j, true)] + (Rest(i) + Rest(j));
            && CanRun(s, t)
            && Exec(s, t).calls == s.calls[i := Returned(Ok, zi)][j := Returned(Ok, zj)]
            && Sum(Exec(s, t).q) == Sum(s.q) + zi + zj
  {
    var s2 := BothAsk(s, i, j, zi, zj);
    BothGrow(s2, i, j, zi, zj);
    RunConcat(s, [Summary(i, true), Summary(j, true)], Rest(i) + Rest(j));
    Overwritten(s.calls, i, j, zi, zj);
  }

  lemma Overwritten(calls: seq<Pc>, i: nat, j: nat, zi: nat, zj: nat)
    requires i < |calls| && j < |calls| && i != j
    ensures calls[i := Summed(zi)][j := Summed(zj)][i := Returned(Ok, zi)][j := Returned(Ok, zj)]
         == calls[i := Returned(Ok, zi)][j := Returned(Ok, zj)]
  {
  }

  lemma BothAsk(s: State, i: nat, j: nat, zi: nat, zj: nat) returns (s2: State)
    requires Inv(s) && i < |s.calls| && j < |s.calls| && i != j && zi > 0 && zj > 0
    requires s.calls[i] == Called(Total(s.q) + zi) && s.calls[j] == Called(Total(s.q) + zj)
    ensures CanRun(s, [Summary(i, true), Summary(j, true)])
    ensures s2 == Exec(s, [Summary(i, true), Summary(j, true)]) && Inv(s2)
    ensures s2 == State(s.q, s.calls[i := Summed(zi)][j := Summed(zj)])
  {
    var s1 := Apply(s, Summary(i, true));
    InvStep(s, Summary(i, true));
    InvStep(s1, Summary(j, true));
    RunCons(s1, Summary(j, true), []);
    RunCons(s, Summary(i, true), [Summary(j, true)]);
    s2 := Apply(s1, Summary(j, true));
  }

  lemma BothGrow(s: State, i: nat, j: nat, zi: nat, zj: nat)
    requires Inv(s) && i < |s.calls| && j < |s.calls| && i != j && zi > 0 && zj > 0
    requires s.calls[i] == Summed(zi) && s.calls[j] == Summed(zj)
    requires Paired(s.q) && Highest(s.q.dimms) + 1 < MAX_INT
    ensures CanRun(s, Rest(i) + Rest(j))
    ensures Exec(s, Rest(i) + Rest(j)).calls == s.calls[i := Returned(Ok, zi)][j := Returned(Ok, zj)]
    ensures Sum(Exec(s, Rest(i) + Rest(j)).q) == Sum(s.q) + zi + zj
  {
    GrownFacts(s.q, zi);
    GrownIsPaired(s.q, zi);
    GrowsAlone(s, i);
    var u := Exec(s, Rest(i));
    InvRun(s, Rest(i));
    GrowsAlone(u, j);
    RunConcat(s, Rest(i), Rest(j));
    Conserved(u, Rest(j));
    PluggedUpdate(u.calls, j, Returned(Ok, zj));
  }
}

/** SetCPUs of driver/driver.go takes no lock: any number of calls of it that overlap, one
    step for each monitor call. `CpuHotplug` is about one call at a time. */
module CpuOverlap {
  import opened CpuHotplug
  import opened Sorting
  import opened Text

  /** Where a call is; `todo` is what is left of the sorted free slots it will plug. */
  datatype Pc = Called(count: nat) | Planned(count: nat, todo: seq<Slot>) | Returned(r: Result)

  datatype State = State(slots: set<Slot>, plugged: set<Slot>, calls: seq<Pc>)

  datatype Step = Begin(count: nat) | Query(i: nat, ok: bool) | AddCpu(i: nat, through: bool)

  predicate Enabled(s: State, a: Step) {
    match a
    case Begin(_) => true
    case Query(i, _) => i < |s.calls| && s.calls[i].Called?
    case AddCpu(i, _) => i < |s.calls| && s.calls[i].Planned? && s.calls[i].todo != []
  }

  /** What the query makes of a call. */
  ghost function Answer(s: State, count: nat, ok: bool): Pc {
    var free := InOrder(s.slots - s.plugged);
    var needed := count - |s.plugged|;
    if !ok then Returned(QueryFailed)
    else if needed == 0 then Returned(Ok)
    else if needed < 0 then Returned(NotSupported)
    else if needed > |free| then Returned(NotEnoughSlots)
    else Planned(count, free[..needed])
  }

  /** device_add is refused when the slot is taken. */
  predicate Accepted(s: State, a: Step)
    requires Enabled(s, a)
  {
    a.AddCpu? && a.through && s.calls[a.i].todo[0] !in s.plugged
  }

  ghost function Apply(s: State, a: Step): State
    requires Enabled(s, a)
  {
    match a
    case Begin(count) => s.(calls := s.calls + [Called(count)])
    case Query(i, ok) => s.(calls := s.calls[i := Answer(s, s.calls[i].count, ok)])
    case AddCpu(i, _) =>
      var pc := s.calls[i];
      if !Accepted(s, a) then s.(calls := s.calls[i := Returned(Incomplete)])
      else
        s.(plugged := s.plugged + {pc.todo[0]},
           calls := s.calls[i := if |pc.todo| == 1 then Returned(Ok) else Planned(pc.count, pc.todo[1..])])
  }

  ghost predicate CanRun(s: State, t: seq<Step>)
    decreases t
  {
    t == [] || (Enabled(s, t[0]) && CanRun(Apply(s, t[0]), t[1..]))
  }

  ghost function Exec(s: State, t: seq<Step>): State
    requires CanRun(s, t)
    decreases t
  {
    if t == [] then s else Exec(Apply(s, t[0]), t[1..])
  }

  // ---------- the invariant ----------

  /** The position of a plan in the order of the slots that were free at the start. */
  predicate PlanAt(m: Machine, pc: Pc, k: nat)
    requires pc.Planned?
  {
    && pc.todo != [] && m.count + k + |pc.todo| >= pc.count
    && m.count + |pc.todo| <= pc.count <= m.count + |m.free|
    && pc.todo == m.free[pc.count - m.count - |pc.todo|..pc.count - m.count]
  }

  /** The k least of the slots free at the start are plugged, and every plan is a stretch of
      them that does not begin after the k-th. */
  ghost predicate Inv(s: State, start: set<Slot>, k: nat) {
    var m := MachineOf(s.slots, start);
    && start <= s.slots && k <= |m.free|
    && s.plugged == Plug(m, k).plugged
    && forall i :: 0 <= i < |s.calls| && s.calls[i].Planned? ==> PlanAt(m, s.calls[i], k)
  }

  lemma FreeFacts(slots: set<Slot>, start: set<Slot>)
    requires start <= slots
    ensures Distinct(InOrder(slots - start))
    ensures forall i :: 0 <= i < |InOrder(slots - start)| ==> InOrder(slots - start)[i] !in start
  {
    OrderFacts(slots - start);
    var free := InOrder(slots - start);
    assert forall i :: 0 <= i < |free| ==> free[i] in Elems(free);
  }

  lemma TakenExactly(slots: set<Slot>, start: set<Slot>, k: nat, a: nat)
    requires start <= slots && k <= |InOrder(slots - start)| && a < |InOrder(slots - start)|
    ensures var m := MachineOf(slots, start); m.free[a] in Plug(m, k).plugged <==> a < k
  {
    FreeFacts(slots, start);
    var free := InOrder(slots - start);
    if a < k {
      assert free[..k][a] == free[a];
    }
    assert forall b :: 0 <= b < k ==> free[..k][b] == free[b];
  }

  lemma PlugNext(m: Machine, k: nat)
    requires k < |m.free|
    ensures Plug(m, k + 1).plugged == Plug(m, k).plugged + {m.free[k]}
  {
    TakeSnoc(m.free, k);
  }

  /** The slots a call's next device_add meets taken are those others have taken since. */
  lemma AcceptedExactly(s: State, start: set<Slot>, k: nat, i: nat)
    requires Inv(s, start, k) && i < |s.calls| && s.calls[i].Planned?
    ensures var m, pc := MachineOf(s.slots, start), s.calls[i];
            var a := pc.count - m.count - |pc.todo|;
            && 0 <= a <= k && a < |m.free| && pc.todo[0] == m.free[a]
            && (pc.todo[0] !in s.plugged <==> a == k)
            && |s.plugged| == m.count + k
  {
    var m, pc := MachineOf(s.slots, start), s.calls[i];
    TakenExactly(s.slots, start, k, pc.count - m.count - |pc.todo|);
    Reached(s.slots, start, k);
  }

  lemma QueryPlans(s: State, start: set<Slot>, k: nat, count: nat, ok: bool)
    requires Inv(s, start, k)
    ensures Answer(s, count, ok).Planned? ==> PlanAt(MachineOf(s.slots, start), Answer(s, count, ok), k)
    ensures |s.plugged| == |start| + k
    ensures Answer(s, count, ok) == Returned(Ok) ==> |s.plugged| == count
  {
    var m := MachineOf(s.slots, start);
    PlugIsReal(s.slots, start, k);
    Reached(s.slots, start, k);
    assert InOrder(s.slots - s.plugged) == m.free[k..];
    var needed := count - |s.plugged|;
    if 0 < needed <= |m.free| - k {
      assert m.free[k..][..needed] == m.free[k..k + needed];
    }
  }

  function Next(s: State, a: Step, k: nat): nat
    requires Enabled(s, a)
  {
    if Accepted(s, a) then k + 1 else k
  }

  lemma PlanTail(m: Machine, pc: Pc, k: nat)
    requires pc.Planned? && PlanAt(m, pc, k) && |pc.todo| > 1
    ensures PlanAt(m, Planned(pc.count, pc.todo[1..]), k + 1)
  {
  }

  lemma InvQuery(s: State, start: set<Slot>, k: nat, i: nat, ok: bool)
    requires Inv(s, start, k) && Enabled(s, Query(i, ok))
    ensures Inv(Apply(s, Query(i, ok)), start, k)
  {
    QueryPlans(s, start, k, s.calls[i].count, ok);
  }

  lemma InvAdd(s: State, start: set<Slot>, k: nat, i: nat, through: bool)
    requires Inv(s, start, k) && Enabled(s, AddCpu(i, through)) && Accepted(s, AddCpu(i, through))
    ensures Inv(Apply(s, AddCpu(i, through)), start, k + 1)
  {
    var m := MachineOf(s.slots, start);
    AcceptedExactly(s, start, k, i);
    AddedPlug(s.slots, start, k);
    if |s.calls[i].todo| > 1 {
      PlanTail(m, s.calls[i], k);
    }
    var u := Apply(s, AddCpu(i, through));
    forall j | 0 <= j < |u.calls| && u.calls[j].Planned? ensures PlanAt(m, u.calls[j], k + 1) {
      if j != i {
        assert PlanAt(m, s.calls[j], k);
      }
    }
  }

  lemma AddedPlug(slots: set<Slot>, start: set<Slot>, k: nat)
    requires start <= slots && k < |InOrder(slots - start)|
    ensures var m := MachineOf(slots, start); Plug(m, k + 1).plugged == Plug(m, k).plugged + {m.free[k]}
  {
    PlugNext(MachineOf(slots, start), k);
  }

  lemma InvRefused(s: State, start: set<Slot>, k: nat, i: nat, through: bool)
    requires Inv(s, start, k) && Enabled(s, AddCpu(i, through)) && !Accepted(s, AddCpu(i, through))
    ensures Inv(Apply(s, AddCpu(i, through)), start, k)
  {
  }

  lemma InvStep(s: State, start: set<Slot>, k: nat, a: Step)
    requires Inv(s, start, k) && Enabled(s, a)
    ensures Inv(Apply(s, a), start, Next(s, a, k))
  {
    match a
    case Begin(_) =>
    case Query(i, ok) => InvQuery(s, start, k, i, ok);
    case AddCpu(i, through) =>
      if Accepted(s, a) {
        InvAdd(s, start, k, i, through);
      } else {
        InvRefused(s, start, k, i, through);
      }
  }

  lemma {:induction false} InvRun(s: State, start: set<Slot>, k: nat, t: seq<Step>) returns (last: nat)
    requires Inv(s, start, k) && CanRun(s, t)
    ensures last >= k && Inv(Exec(s, t), start, last) && Exec(s, t).slots == s.slots
    decreases t
  {
    last := k;
    if t != [] {
      InvStep(s, start, k, t[0]);
      last := InvRun(Apply(s, t[0]), start, Next(s, t[0], k), t[1..]);
    }
  }

  lemma PluggedPrecede(s: State, start: set<Slot>, k: nat, x: Slot, y: Slot)
    requires Inv(s, start, k) && x in s.plugged && x !in start && y in s.slots && y !in s.plugged
    ensures || x.socket < y.socket
            || (x.socket == y.socket && x.core < y.core)
            || (x.socket == y.socket && x.core == y.core && x.thread < y.thread)
  {
    PluggedAreLeast(s.slots, start, k, x, y);
  }

  /** In every interleaving the machine keeps the slots it started with, and every slot plugged
      since precedes every one left free, by socket, then by core, then by thread: no gap is
      left. */
  lemma PluggedAreLeastRun(s: State, start: set<Slot>, k: nat, t: seq<Step>, x: Slot, y: Slot)
    requires Inv(s, start, k) && CanRun(s, t)
    requires x in Exec(s, t).plugged && x !in start && y in s.slots && y !in Exec(s, t).plugged
    ensures start <= Exec(s, t).plugged <= s.slots
    ensures || x.socket < y.socket
            || (x.socket == y.socket && x.core < y.core)
            || (x.socket == y.socket && x.core == y.core && x.thread < y.thread)
  {
    var last := InvRun(s, start, k, t);
    PlugIsReal(s.slots, start, last);
    PluggedPrecede(Exec(s, t), start, last, x, y);
  }

  // ---------- one call on its own ----------

  /** The steps of one call of `CpuHotplug`; `made` device_add calls have succeeded. */
  ghost function Alone(s: State, i: nat, queryOk: bool, failAt: Option<nat>, made: nat): State
    requires i < |s.calls|
    decreases s.calls[i].Called?, if s.calls[i].Planned? then |s.calls[i].todo| else 0
  {
    if s.calls[i].Called? then Alone(Apply(s, Query(i, queryOk)), i, queryOk, failAt, made)
    else if s.calls[i].Planned? && s.calls[i].todo != [] then
      Alone(Apply(s, AddCpu(i, failAt != Some(made))), i, queryOk, failAt, made + 1)
    else s
  }

  ghost predicate EndsAs(u: State, i: nat, plugged: set<Slot>, r: Result) {
    i < |u.calls| && u.plugged == plugged && u.calls[i] == Returned(r)
  }

  lemma {:induction false} PlansAlone(s: State, i: nat, queryOk: bool, failAt: Option<nat>, made: nat)
    requires i < |s.calls| && s.calls[i].Planned? && s.calls[i].todo != [] && Distinct(s.calls[i].todo)
    requires forall x :: x in s.calls[i].todo ==> x !in s.plugged
    requires failAt.Some? ==> made <= failAt.value
    ensures var todo := s.calls[i].todo;
            var k := if failAt.Some? && failAt.value - made < |todo| then failAt.value - made else |todo|;
            EndsAs(Alone(s, i, queryOk, failAt, made), i, s.plugged + Elems(todo[..k]),
                   if k < |todo| then Incomplete else Ok)
    decreases |s.calls[i].todo|
  {
    var todo := s.calls[i].todo;
    var a := AddCpu(i, failAt != Some(made));
    assert todo[0] in todo;
    if failAt != Some(made) && |todo| > 1 {
      assert todo == [todo[0]] + todo[1..];
      PlansAlone(Apply(s, a), i, queryOk, failAt, made + 1);
      var k := if failAt.Some? && failAt.value - made < |todo| then failAt.value - made else |todo|;
      assert todo[..k] == [todo[0]] + todo[1..][..k - 1];
    }
  }

  lemma AnswerReturns(s: State, count: nat, queryOk: bool, failAt: Option<nat>)
    requires !Answer(s, count, queryOk).Planned?
    ensures var m := MachineOf(s.slots, s.plugged);
            Answer(s, count, queryOk) == Returned(Outcome(m, count, queryOk, failAt).1)
            && Outcome(m, count, queryOk, failAt).0.plugged == s.plugged
  {
    PlugNothing(MachineOf(s.slots, s.plugged));
  }

  function FailsAfter(n: nat, failAt: Option<nat>): nat {
    if failAt.Some? && failAt.value < n then failAt.value else n
  }

  lemma OutcomePlans(m: Machine, count: nat, failAt: Option<nat>)
    requires m.count < count <= m.count + |m.free|
    ensures var n := count - m.count;
            var k := FailsAfter(n, failAt);
            Outcome(m, count, true, failAt) == (Plug(m, k), if k < n then Incomplete else Ok)
  {
  }

  lemma AnswerPlans(s: State, count: nat, queryOk: bool, failAt: Option<nat>)
    requires Answer(s, count, queryOk).Planned?
    ensures var m := MachineOf(s.slots, s.plugged);
            var todo := Answer(s, count, queryOk).todo;
            var k := FailsAfter(|todo|, failAt);
            && todo == m.free[..|todo|] && todo != []
            && Outcome(m, count, queryOk, failAt).0.plugged == s.plugged + Elems(todo[..k])
            && Outcome(m, count, queryOk, failAt).1 == if k < |todo| then Incomplete else Ok
  {
    var m := MachineOf(s.slots, s.plugged);
    var todo := Answer(s, count, queryOk).todo;
    OutcomePlans(m, count, failAt);
    assert m.free[..FailsAfter(|todo|, failAt)] == todo[..FailsAfter(|todo|, failAt)];
  }

  /** A call that no other overlaps is the call of `CpuHotplug`, wherever it fails. */
  lemma AloneIsAtomic(s: State, i: nat, queryOk: bool, failAt: Option<nat>)
    requires i < |s.calls| && s.calls[i].Called? && s.plugged <= s.slots
    ensures var o := Outcome(MachineOf(s.slots, s.plugged), s.calls[i].count, queryOk, failAt);
            EndsAs(Alone(s, i, queryOk, failAt, 0), i, o.0.plugged, o.1)
  {
    var count := s.calls[i].count;
    var s1 := Apply(s, Query(i, queryOk));
    assert Alone(s, i, queryOk, failAt, 0) == Alone(s1, i, queryOk, failAt, 0);
    if Answer(s, count, queryOk).Planned? {
      AnswerPlans(s, count, queryOk, failAt);
      FreeFacts(s.slots, s.plugged);
      PlansAlone(s1, i, queryOk, failAt, 0);
    } else {
      AnswerReturns(s, count, queryOk, failAt);
    }
  }

  // ---------- never too many ----------

  predicate Asks(pc: Pc, bound: nat) { pc.Returned? || pc.count <= bound }

  ghost predicate Bounded(s: State, bound: nat) {
    |s.plugged| <= bound && forall i :: 0 <= i < |s.calls| ==> Asks(s.calls[i], bound)
  }

  lemma CountStep(s: State, start: set<Slot>, k: nat, a: Step)
    requires Inv(s, start, k) && Enabled(s, a)
    ensures |Apply(s, a).plugged| == |s.plugged| + (if Accepted(s, a) then 1 else 0)
    ensures Accepted(s, a) ==> |Apply(s, a).plugged| == s.calls[a.i].count - |s.calls[a.i].todo| + 1
  {
    if a.AddCpu? {
      AcceptedExactly(s, start, k, a.i);
    }
  }

  lemma BoundedStep(s: State, start: set<Slot>, k: nat, a: Step, bound: nat)
    requires Inv(s, start, k) && Enabled(s, a) && Bounded(s, bound) && (a.Begin? ==> a.count <= bound)
    ensures Bounded(Apply(s, a), bound)
  {
    CountStep(s, start, k, a);
    AsksStep(s, a, bound);
  }

  lemma AsksStep(s: State, a: Step, bound: nat)
    requires Enabled(s, a) && (a.Begin? ==> a.count <= bound)
    requires forall i :: 0 <= i < |s.calls| ==> Asks(s.calls[i], bound)
    ensures forall i :: 0 <= i < |Apply(s, a).calls| ==> Asks(Apply(s, a).calls[i], bound)
  {
    var u := Apply(s, a);
    forall i | 0 <= i < |u.calls| ensures Asks(u.calls[i], bound) {
      assert i < |s.calls| ==> Asks(s.calls[i], bound);
    }
  }

  /** However calls overlap, no more CPUs are plugged than the largest request. */
  lemma {:induction false} NeverOvershoots(s: State, start: set<Slot>, k: nat, t: seq<Step>, bound: nat)
    requires Inv(s, start, k) && CanRun(s, t) && Bounded(s, bound)
    requires forall a :: a in t && a.Begin? ==> a.count <= bound
    ensures |Exec(s, t).plugged| <= bound
    decreases t
  {
    if t != [] {
      assert t[0] in t && forall a :: a in t[1..] ==> a in t;
      BoundedStep(s, start, k, t[0], bound);
      InvStep(s, start, k, t[0]);
      NeverOvershoots(Apply(s, t[0]), start, Next(s, t[0], k), t[1..], bound);
    }
  }

  /** A call that returns nil leaves exactly the number it was asked for, whatever other calls
      are under way. */
  lemma OkIsExact(s: State, start: set<Slot>, k: nat, a: Step)
    requires Inv(s, start, k) && Enabled(s, a) && !a.Begin? && Apply(s, a).calls[a.i] == Returned(Ok)
    ensures |Apply(s, a).plugged| == s.calls[a.i].count
  {
    if a.Query? {
      QueryPlans(s, start, k, s.calls[a.i].count, a.ok);
    } else {
      CountStep(s, start, k, a);
    }
  }

  // ---------- when a call fails because of another ----------

  /** The number of CPUs others plug in a run. */
  ghost function ByOthers(s: State, t: seq<Step>, i: nat): nat
    requires CanRun(s, t)
    decreases t
  {
    if t == [] then 0
    else (if Accepted(s, t[0]) && t[0].i != i then 1 else 0) + ByOthers(Apply(s, t[0]), t[1..], i)
  }

  lemma AccountedStep(s: State, start: set<Slot>, k: nat, a: Step, i: nat)
    requires Inv(s, start, k) && Enabled(s, a) && i < |s.calls| && s.calls[i].Planned?
    requires Apply(s, a).calls[i].Planned?
    ensures var u := Apply(s, a);
            |u.plugged| - (u.calls[i].count - |u.calls[i].todo|)
            == |s.plugged| - (s.calls[i].count - |s.calls[i].todo|) + (if Accepted(s, a) && a.i != i then 1 else 0)
  {
    CountStep(s, start, k, a);
  }

  lemma {:induction false} Accounted(s: State, start: set<Slot>, k: nat, t: seq<Step>, i: nat)
    requires Inv(s, start, k) && CanRun(s, t) && i < |s.calls|
    requires i < |Exec(s, t).calls| && Exec(s, t).calls[i].Planned? && s.calls[i].Planned?
    ensures var u := Exec(s, t);
            |u.plugged| - (u.calls[i].count - |u.calls[i].todo|)
            == |s.plugged| - (s.calls[i].count - |s.calls[i].todo|) + ByOthers(s, t, i)
    decreases t
  {
    if t != [] {
      var s1 := Apply(s, t[0]);
      StillPlanned(s1, t[1..], i);
      PlannedStays(s, t[0], i);
      AccountedStep(s, start, k, t[0], i);
      InvStep(s, start, k, t[0]);
      Accounted(s1, start, Next(s, t[0], k), t[1..], i);
    }
  }

  lemma PlannedStays(s: State, a: Step, i: nat)
    requires Enabled(s, a) && i < |s.calls| && s.calls[i].Planned?
    ensures i < |Apply(s, a).calls| && !Apply(s, a).calls[i].Called?
  {
  }

  lemma {:induction false} StillPlanned(s: State, t: seq<Step>, i: nat)
    requires CanRun(s, t) && i < |s.calls|
    ensures i < |Exec(s, t).calls|
    ensures s.calls[i].Returned? ==> Exec(s, t).calls[i] == s.calls[i]
    decreases t
  {
    if t != [] {
      StillPlanned(Apply(s, t[0]), t[1..], i);
    }
  }

  /** From its query on, a device_add that QEMU would carry out is refused exactly when some
      other call has plugged a CPU since the query. */
  lemma RefusedExactly(s: State, start: set<Slot>, k: nat, i: nat, t: seq<Step>)
    requires Inv(s, start, k) && Enabled(s, Query(i, true)) && Apply(s, Query(i, true)).calls[i].Planned?
    requires CanRun(Apply(s, Query(i, true)), t)
    requires Enabled(Exec(Apply(s, Query(i, true)), t), AddCpu(i, true))
    ensures var s1 := Apply(s, Query(i, true));
            Accepted(Exec(s1, t), AddCpu(i, true)) <==> ByOthers(s1, t, i) == 0
  {
    var s1 := Apply(s, Query(i, true));
    QueryPlans(s, start, k, s.calls[i].count, true);
    InvStep(s, start, k, Query(i, true));
    Accounted(s1, start, k, t, i);
    var last := InvRun(s1, start, k, t);
    AcceptedExactly(Exec(s1, t), start, last, i);
  }

  // ---------- two calls that overlap ----------

  predicate Won(pc: Pc) { pc == Returned(Ok) }

  /** Another call has plugged since this one's query. */
  ghost predicate Doomed(s: State, i: nat)
    requires i < |s.calls|
  {
    (s.calls[i].Returned? && !Won(s.calls[i]))
    || (s.calls[i].Planned? && |s.plugged| > s.calls[i].count - |s.calls[i].todo|)
  }

  ghost predicate Rivals(s: State, i: nat, j: nat) {
    && i < |s.calls| && j < |s.calls| && i != j && !s.calls[i].Called? && !s.calls[j].Called?
    && (Won(s.calls[i]) ==> Doomed(s, j)) && (Won(s.calls[j]) ==> Doomed(s, i))
  }

  lemma DoomedStays(s: State, start: set<Slot>, k: nat, a: Step, i: nat)
    requires Inv(s, start, k) && Enabled(s, a) && i < |s.calls| && Doomed(s, i)
    ensures Doomed(Apply(s, a), i)
  {
    CountStep(s, start, k, a);
    if a.AddCpu? && a.i == i {
      AcceptedExactly(s, start, k, i);
    }
  }

  lemma WinnerDooms(s: State, start: set<Slot>, k: nat, a: Step, i: nat)
    requires Inv(s, start, k) && Enabled(s, a) && Accepted(s, a) && i < |s.calls| && i != a.i && s.calls[i].Planned?
    ensures Doomed(Apply(s, a), i)
  {
    CountStep(s, start, k, a);
    AcceptedExactly(s, start, k, i);
  }

  lemma RivalsStep(s: State, start: set<Slot>, k: nat, a: Step, i: nat, j: nat)
    requires Inv(s, start, k) && Enabled(s, a) && Rivals(s, i, j)
    ensures Rivals(Apply(s, a), i, j)
  {
    if Doomed(s, i) {
      DoomedStays(s, start, k, a, i);
    }
    if Doomed(s, j) {
      DoomedStays(s, start, k, a, j);
    }
    if a.AddCpu? && Accepted(s, a) {
      if a.i == i && s.calls[j].Planned? {
        WinnerDooms(s, start, k, a, j);
      }
      if a.i == j && s.calls[i].Planned? {
        WinnerDooms(s, start, k, a, i);
      }
    }
  }

  /** Of two calls that have both done their query, each finding CPUs missing, at most one
      succeeds. */
  lemma {:induction false} OneWins(s: State, start: set<Slot>, k: nat, t: seq<Step>, i: nat, j: nat)
    requires Inv(s, start, k) && CanRun(s, t) && Rivals(s, i, j)
    ensures Rivals(Exec(s, t), i, j) && !(Won(Exec(s, t).calls[i]) && Won(Exec(s, t).calls[j]))
    decreases t
  {
    if t != [] {
      RivalsStep(s, start, k, t[0], i, j);
      InvStep(s, start, k, t[0]);
      OneWins(Apply(s, t[0]), start, Next(s, t[0], k), t[1..], i, j);
    }
  }
}

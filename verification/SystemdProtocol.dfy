/** One strategy of execution/systemd.go waiting for one unit: FindRunning and Start,
    the goroutine `watch`, the unit itself, and everybody else using the same waiter.
    FindRunning subscribes and then queries; Start starts the unit and then subscribes. */
module SystemdProtocol {
  import opened Text
  import W = SystemdWaiter

  datatype Pc =
    | Begin                 // neither function called yet
    | Started               // Start: the unit runs, Add to come
    | Added                 // FindRunning: subscribed, query to come
    | Seen(running: bool)   // FindRunning: query answered
    | Registered            // Start: subscribed
    | Spawned               // `go s.watch()` done, unitName not yet assigned
    | Returned              // chOut returned
    | ReturnedNil
    | Failed

  datatype Watcher = NotStarted | Waiting | Cleared | Done   // Done: chOut closed

  datatype State = State(
    unit: string,
    w: W.State,
    loaded: bool,          // the unit exists
    exited: bool,
    pc: Pc,
    chIn: Option<W.Chan>,
    watch: Watcher,
    named: bool,           // unitName is the unit's name rather than ""
    wasAssigned: bool,        // history: unitName has been assigned
    clearedFirst: bool)    // history: watch cleared it before that

  datatype Step =
    | StartUnit
    | StartAdd
    | FindAdd
    | Query(ok: bool)
    | Spawn
    | Assign
    | GiveUp                 // FindRunning: the unit was not running
    | WatchClear
    | WatchClose
    | UnitExit(sig: W.Signal)
    | Other(a: W.Step)

  function Init(unit: string, prefix: string, loaded: bool): State {
    State(unit, W.Init(prefix), loaded, false, Begin, None, NotStarted, false, false, false)
  }

  predicate About(s: State, sig: W.Signal) { W.Target(s.w.prefix, sig) == Some(s.unit) }

  predicate ChInClosed(s: State) { s.chIn.Some? && s.chIn.value in s.w.closed }

  /** Qualifying signals about the unit are emitted only once it has exited, and nobody
      else adds or removes this unit. */
  predicate Foreign(s: State, a: W.Step) {
    match a
    case Add(u) => u != s.unit
    case Remove(u) => u != s.unit
    case Emit(sig) => About(s, sig) ==> s.exited
    case Handle(_) => true
  }

  predicate Enabled(s: State, a: Step) {
    match a
    case StartUnit => s.pc == Begin && !s.loaded
    case StartAdd => s.pc == Started
    case FindAdd => s.pc == Begin
    case Query(_) => s.pc == Added
    case Spawn => s.pc == Seen(true) || s.pc == Registered
    case Assign => s.pc == Spawned
    case GiveUp => s.pc == Seen(false)
    case WatchClear => s.watch == Waiting && ChInClosed(s)
    case WatchClose => s.watch == Cleared
    case UnitExit(sig) => s.loaded && !s.exited && About(s, sig)
    case Other(e) => W.Enabled(s.w, e) && Foreign(s, e)
  }

  function Subscribe(s: State, next: Pc): State {
    if s.unit in s.w.unitMap then s.(chIn := None, pc := Failed)
    else s.(w := W.AddUnit(s.w, s.unit), chIn := Some(s.w.nextChan), pc := next)
  }

  function Apply(s: State, a: Step): State
    requires Enabled(s, a)
  {
    match a
    case StartUnit => s.(loaded := true, pc := Started)
    case StartAdd => Subscribe(s, Registered)
    case FindAdd => Subscribe(s, Added)
    case Query(ok) => s.(pc := if ok then Seen(s.loaded && !s.exited) else Failed)
    case Spawn => s.(pc := Spawned, watch := Waiting)
    case Assign => s.(pc := Returned, named := s.unit != "", wasAssigned := true)
    case GiveUp => s.(w := W.RemoveUnit(s.w, s.unit), chIn := None, named := false, pc := ReturnedNil)
    case WatchClear => s.(watch := Cleared, named := false, clearedFirst := !s.wasAssigned)
    case WatchClose => s.(watch := Done)
    case UnitExit(sig) => s.(exited := true, w := W.Apply(s.w, W.Emit(sig)))
    case Other(e) => s.(w := W.Apply(s.w, e))
  }

  predicate CanRun(s: State, t: seq<Step>)
    decreases t
  {
    t == [] || (Enabled(s, t[0]) && CanRun(Apply(s, t[0]), t[1..]))
  }

  function Exec(s: State, t: seq<Step>): State
    requires CanRun(s, t)
    decreases t
  {
    if t == [] then s else Exec(Apply(s, t[0]), t[1..])
  }

  lemma RunCons(s: State, a: Step, t: seq<Step>)
    requires Enabled(s, a) && CanRun(Apply(s, a), t)
    ensures CanRun(s, [a] + t) && Exec(s, [a] + t) == Exec(Apply(s, a), t)
  {
    assert ([a] + t)[1..] == t;
  }

  // ---------- common invariant ----------

  predicate Subscribed(s: State) {
    s.pc == Added || s.pc.Seen? || s.pc == Registered || s.pc == Spawned || s.pc == Returned
  }

  ghost predicate PendingFor(w: W.State, unit: string) {
    exists sig :: sig in w.pending && W.Target(w.prefix, sig) == Some(unit)
  }

  ghost predicate SignalPending(s: State) { PendingFor(s.w, s.unit) }

  ghost predicate Inv(s: State) { W.Safe(s.w) && WaiterInv(s) && NameInv(s) }

  ghost predicate WaiterInv(s: State) {
    && (s.exited ==> s.loaded)
    && (!s.exited ==> !SignalPending(s))
    && (Subscribed(s) && ChInClosed(s) ==> s.exited)
    && (s.pc == Begin || s.pc == Started ==> s.chIn == None)
    && (Subscribed(s) ==>
          && s.chIn.Some? && s.chIn.value < s.w.nextChan
          && (s.chIn.value !in s.w.closed ==>
                s.unit in s.w.unitMap && s.w.unitMap[s.unit] == s.chIn.value))
  }

  predicate NameInv(s: State) {
    && (s.watch != NotStarted <==> s.pc == Spawned || s.pc == Returned)
    && (s.wasAssigned <==> s.pc == Returned)
    && (s.clearedFirst ==> s.watch == Cleared || s.watch == Done)
    && (s.pc == Returned && s.watch == Waiting ==> s.named == (s.unit != ""))
    && (s.watch == Cleared || s.watch == Done ==>
          && ChInClosed(s)
          && (s.pc == Spawned ==> s.clearedFirst && !s.named)
          && (s.pc == Returned ==> s.named == (s.clearedFirst && s.unit != "")))
  }

  /** Handling a signal: what happens to the unit's own channel. */
  lemma OtherFacts(s: State, a: W.Step)
    requires W.Safe(s.w) && Enabled(s, Other(a))
    ensures var v := W.Apply(s.w, a);
            && W.Safe(v) && v.prefix == s.w.prefix && s.w.nextChan <= v.nextChan
            && (forall c :: c in s.w.closed ==> c in v.closed)
            && (s.unit in s.w.unitMap ==>
                  || (s.unit in v.unitMap && v.unitMap[s.unit] == s.w.unitMap[s.unit])
                  || s.w.unitMap[s.unit] in v.closed)
  {
    W.SafeStep(s.w, a);
  }

  /** A channel of this unit closes only through a signal about this unit. */
  lemma OnlyAboutCloses(s: State, a: W.Step)
    requires Inv(s) && Enabled(s, Other(a)) && !SignalPending(s) && Subscribed(s) && !ChInClosed(s)
    ensures s.chIn.value !in W.Apply(s.w, a).closed
  {
    if a.Handle? {
      assert !About(s, a.sig);
    }
  }

  lemma InvOther(s: State, a: W.Step)
    requires Inv(s) && Enabled(s, Other(a))
    ensures Inv(Apply(s, Other(a)))
  {
    OtherFacts(s, a);
    if Subscribed(s) && !s.exited {
      OnlyAboutCloses(s, a);
    }
    if !s.exited {
      NothingPending(s, a);
    }
    InvFromFacts(s, W.Apply(s.w, a));
  }

  lemma NothingPending(s: State, a: W.Step)
    requires Inv(s) && Enabled(s, Other(a)) && !s.exited
    ensures !PendingFor(W.Apply(s.w, a), s.unit)
  {
    var v := W.Apply(s.w, a);
    assert v.prefix == s.w.prefix;
    forall sig | sig in v.pending ensures W.Target(s.w.prefix, sig) != Some(s.unit) {
      assert sig in s.w.pending || (a.Emit? && sig == a.sig);
    }
  }

  lemma PendingKept(w: W.State, a: W.Step, unit: string)
    requires W.Enabled(w, a) && PendingFor(w, unit)
    requires a.Handle? ==> W.Target(w.prefix, a.sig) != Some(unit)
    ensures PendingFor(W.Apply(w, a), unit)
  {
    var sig :| sig in w.pending && W.Target(w.prefix, sig) == Some(unit);
    var v := W.Apply(w, a);
    assert v.prefix == w.prefix && sig in v.pending;
  }

  lemma InvFromFacts(s: State, v: W.State)
    requires Inv(s) && W.Safe(v) && v.prefix == s.w.prefix && s.w.nextChan <= v.nextChan
    requires forall c :: c in s.w.closed ==> c in v.closed
    requires s.unit in s.w.unitMap ==>
               || (s.unit in v.unitMap && v.unitMap[s.unit] == s.w.unitMap[s.unit])
               || s.w.unitMap[s.unit] in v.closed
    requires !s.exited ==> !PendingFor(v, s.unit)
    requires !s.exited && Subscribed(s) ==> s.chIn.value !in v.closed
    ensures Inv(s.(w := v))
  {
  }

  lemma InvStep(s: State, a: Step)
    requires Inv(s) && Enabled(s, a)
    ensures Inv(Apply(s, a))
  {
    match a
    case Other(e) => InvOther(s, e);
    case UnitExit(sig) => W.SafeStep(s.w, W.Emit(sig));
    case StartAdd => InvSubscribe(s, Registered);
    case FindAdd => InvSubscribe(s, Added);
    case GiveUp => InvGiveUp(s);
    case _ =>
  }

  lemma InvSubscribe(s: State, next: Pc)
    requires Inv(s) && (s.pc == Begin || s.pc == Started) && (next == Registered || next == Added)
    ensures Inv(Subscribe(s, next))
    ensures SignalPending(Subscribe(s, next)) <==> SignalPending(s)
  {
    var v := W.AddUnit(s.w, s.unit);
    W.SafeStep(s.w, W.Add(s.unit));
    SamePending(s.w, v, s.unit);
    if s.unit !in s.w.unitMap {
      assert v.closed == s.w.closed && v.unitMap == s.w.unitMap[s.unit := s.w.nextChan];
      Subscribing(s, v, next);
    }
  }

  lemma SamePending(w: W.State, v: W.State, unit: string)
    requires w.prefix == v.prefix && w.pending == v.pending
    ensures PendingFor(w, unit) <==> PendingFor(v, unit)
  {
  }

  lemma Subscribing(s: State, v: W.State, next: Pc)
    requires Inv(s) && (s.pc == Begin || s.pc == Started) && (next == Registered || next == Added)
    requires W.Safe(v) && v.closed == s.w.closed && v.nextChan == s.w.nextChan + 1
    requires v.unitMap == s.w.unitMap[s.unit := s.w.nextChan]
    requires PendingFor(v, s.unit) <==> SignalPending(s)
    ensures Inv(s.(w := v, chIn := Some(s.w.nextChan), pc := next))
  {
  }

  lemma InvGiveUp(s: State)
    requires Inv(s) && Enabled(s, GiveUp)
    ensures Inv(Apply(s, GiveUp))
  {
    W.SafeStep(s.w, W.Remove(s.unit));
    SamePending(s.w, W.RemoveUnit(s.w, s.unit), s.unit);
  }

  lemma {:induction false} InvRun(s: State, t: seq<Step>)
    requires Inv(s) && CanRun(s, t)
    ensures Inv(Exec(s, t))
    decreases t
  {
    if t != [] {
      InvStep(s, t[0]);
      InvRun(Apply(s, t[0]), t[1..]);
    }
  }

  /** chOut is closed only for a unit that has exited. */
  lemma NoFalseExit(unit: string, prefix: string, loaded: bool, t: seq<Step>)
    requires CanRun(Init(unit, prefix, loaded), t)
    requires Exec(Init(unit, prefix, loaded), t).watch == Done
    ensures Exec(Init(unit, prefix, loaded), t).exited
  {
    InvRun(Init(unit, prefix, loaded), t);
  }

  // ---------- noticing the exit ----------

  ghost predicate Noticed(s: State) { ChInClosed(s) || SignalPending(s) }

  /** If the exit cannot be missed now, it cannot be missed later. */
  lemma NoticedStep(s: State, a: Step)
    requires Inv(s) && Subscribed(s) && (s.exited ==> Noticed(s)) && Enabled(s, a)
    ensures var t := Apply(s, a);
            Subscribed(t) && t.exited ==> Noticed(t)
  {
    var t := Apply(s, a);
    if t.exited && Subscribed(t) {
      match a
      case UnitExit(sig) => assert sig in t.w.pending && t.w.prefix == s.w.prefix;
      case Other(e) =>
        OtherFacts(s, e);
        if !ChInClosed(s) {
          if e.Handle? && About(s, e.sig) {
            assert s.chIn.value in t.w.closed;
          } else {
            PendingKept(s.w, e, s.unit);
          }
        }
      case _ =>
    }
  }

  lemma {:induction false} NoticedRun(s: State, t: seq<Step>)
    requires Inv(s) && Subscribed(s) && (s.exited ==> Noticed(s)) && CanRun(s, t)
    ensures Subscribed(Exec(s, t)) && Exec(s, t).exited ==> Noticed(Exec(s, t))
    decreases t
  {
    if t != [] {
      InvStep(s, t[0]);
      NoticedStep(s, t[0]);
      var s1 := Apply(s, t[0]);
      if Subscribed(s1) {
        NoticedRun(s1, t[1..]);
      } else {
        UnsubscribedForever(s1, t[1..]);
      }
    }
  }

  lemma {:induction false} UnsubscribedForever(s: State, t: seq<Step>)
    requires (s.pc == ReturnedNil || s.pc == Failed) && CanRun(s, t)
    ensures Exec(s, t).pc == s.pc
    decreases t
  {
    if t != [] {
      UnsubscribedForever(Apply(s, t[0]), t[1..]);
    }
  }

  /** FindRunning, from any state of the waiter: no run of it misses the exit, wherever it
      falls. Once the query is answered, either FindRunning is going to return nil, or the
      channel is closed, or a signal that will close it is pending. */
  lemma FindRunningNeverMisses(s: State, t: seq<Step>)
    requires Inv(s) && s.pc == Begin && CanRun(s, t) && FindsOnly(t)
    ensures FindNoticed(Exec(s, t))
  {
    FindRun(s, t);
  }

  /** The call is FindRunning, not Start. */
  predicate FindsOnly(t: seq<Step>) { forall a :: a in t ==> !a.StartUnit? }

  predicate FindInv(s: State) { s.pc != Started && s.pc != Registered }

  ghost predicate FindNoticed(s: State) {
    s.exited && (s.pc == Seen(true) || s.pc == Spawned || s.pc == Returned) ==> Noticed(s)
  }

  lemma {:induction false} FindRun(s: State, t: seq<Step>)
    requires Inv(s) && FindInv(s) && FindNoticed(s) && CanRun(s, t) && FindsOnly(t)
    ensures FindNoticed(Exec(s, t))
    decreases t
  {
    if t != [] {
      assert t[0] in t && forall a :: a in t[1..] ==> a in t;
      InvStep(s, t[0]);
      FindStep(s, t[0]);
      FindRun(Apply(s, t[0]), t[1..]);
    }
  }

  lemma FindStep(s: State, a: Step)
    requires Inv(s) && FindInv(s) && FindNoticed(s) && Enabled(s, a) && !a.StartUnit?
    ensures FindInv(Apply(s, a)) && FindNoticed(Apply(s, a))
  {
    if s.pc == Seen(true) || s.pc == Spawned || s.pc == Returned {
      NoticedStep(s, a);
    }
  }

  /** No further qualifying signal about the unit is emitted. */
  predicate Quiet(s: State, a: Step) { a.Other? && a.a.Emit? ==> !About(s, a.a.sig) }

  predicate QuietRun(s: State, t: seq<Step>)
    requires CanRun(s, t)
    decreases t
  {
    t == [] || (Quiet(s, t[0]) && QuietRun(Apply(s, t[0]), t[1..]))
  }

  /** The exit is over, its signals have been handled, and the channel is still open. */
  ghost predicate Missed(s: State) { s.exited && Subscribed(s) && !Noticed(s) }

  lemma {:induction false} MissedForever(s: State, t: seq<Step>)
    requires Inv(s) && Missed(s) && s.pc != Added && !s.pc.Seen? && CanRun(s, t) && QuietRun(s, t)
    ensures var u := Exec(s, t);
            Missed(u) && u.pc != Added && !u.pc.Seen? && u.watch != Done
            && (u.pc == Returned ==> u.named == (s.unit != ""))
    decreases t
  {
    if t != [] {
      InvStep(s, t[0]);
      MissedStep(s, t[0]);
      MissedForever(Apply(s, t[0]), t[1..]);
    }
  }

  lemma MissedStep(s: State, a: Step)
    requires Inv(s) && Missed(s) && s.pc != Added && !s.pc.Seen? && Enabled(s, a) && Quiet(s, a)
    ensures Missed(Apply(s, a)) && Apply(s, a).pc != Added && !Apply(s, a).pc.Seen?
  {
    var t := Apply(s, a);
    if a.Other? {
      OnlyAboutCloses(s, a.a);
      assert PendingFor(t.w, s.unit) ==> SignalPending(s);
    }
  }

  ghost predicate CanMiss(s: State) {
    exists t: seq<Step> :: CanRun(s, t) && QuietRun(s, t) && Missed(Exec(s, t))
  }

  /** Start, exactly: subscribing at state `s` misses the exit, in the sense that some
      later state without further signals has exited unnoticed, iff by then the unit has
      exited and the handlers of its signals have already run. */
  lemma StartMissesExactly(s: State)
    requires Inv(s) && s.pc == Started && s.unit !in s.w.unitMap
    ensures CanMiss(Apply(s, StartAdd)) <==> s.exited && !SignalPending(s)
  {
    var s1 := Apply(s, StartAdd);
    InvStep(s, StartAdd);
    InvSubscribe(s, Registered);
    if s.exited && !SignalPending(s) {
      assert s1.chIn.value !in s1.w.closed;
      var t: seq<Step> := [];
      assert CanRun(s1, t) && QuietRun(s1, t) && Missed(Exec(s1, t));
    } else {
      forall t: seq<Step> | CanRun(s1, t) ensures !Missed(Exec(s1, t)) {
        NoticedRun(s1, t);
      }
    }
  }

  /** A run of Start that misses the exit: the unit exits and its signal is handled
      before Add. From then on chOut is never closed and unitName never cleared. */
  lemma StartCanMiss(unit: string, prefix: string, sig: W.Signal)
    requires W.Target(prefix, sig) == Some(unit)
    ensures var t := [StartUnit, UnitExit(sig), Other(W.Handle(sig)), StartAdd, Spawn, Assign];
            && CanRun(Init(unit, prefix, false), t)
            && Missed(Exec(Init(unit, prefix, false), t)) && Exec(Init(unit, prefix, false), t).pc == Returned
  {
    var s0 := Init(unit, prefix, false);
    var s1 := Apply(s0, StartUnit);
    var s2 := Apply(s1, UnitExit(sig));
    assert sig in s2.w.pending;
    var s3 := Apply(s2, Other(W.Handle(sig)));
    HandledTooEarly(s3);
    RunCons(s2, Other(W.Handle(sig)), [StartAdd, Spawn, Assign]);
    RunCons(s1, UnitExit(sig), [Other(W.Handle(sig)), StartAdd, Spawn, Assign]);
    RunCons(s0, StartUnit, [UnitExit(sig), Other(W.Handle(sig)), StartAdd, Spawn, Assign]);
  }

  lemma HandledTooEarly(s: State)
    requires s.pc == Started && s.exited && s.w.unitMap == map[] && s.w.closed == multiset{}
    requires s.w.pending == multiset{}
    ensures var t := [StartAdd, Spawn, Assign];
            CanRun(s, t) && Missed(Exec(s, t)) && Exec(s, t).pc == Returned
  {
    var s1 := Apply(s, StartAdd);
    var s2 := Apply(s1, Spawn);
    RunCons(s2, Assign, []);
    RunCons(s1, Spawn, [Assign]);
    RunCons(s, StartAdd, [Spawn, Assign]);
  }

  // ---------- unitName ----------

  /** After the function has returned and chOut has closed, IsRunning answers false iff
      unitName was assigned before `watch` cleared it; and that answer is final. */
  lemma {:induction false} UnitNameExactly(s: State, t: seq<Step>)
    requires Inv(s) && s.pc == Returned && s.watch == Done && CanRun(s, t)
    ensures s.named == (s.clearedFirst && s.unit != "") && Exec(s, t).named == s.named
    ensures Exec(s, t).pc == Returned && Exec(s, t).watch == Done
    decreases t
  {
    if t != [] {
      InvStep(s, t[0]);
      UnitNameExactly(Apply(s, t[0]), t[1..]);
    }
  }

  /** Both orders are possible whenever the channel closes before the assignment. */
  lemma BothOrders(s: State)
    requires Inv(s) && s.pc == Spawned && s.watch == Waiting && ChInClosed(s)
    ensures var late := [WatchClear, WatchClose, Assign];
            var early := [Assign, WatchClear, WatchClose];
            && CanRun(s, late) && Exec(s, late).watch == Done && Exec(s, late).named == (s.unit != "")
            && CanRun(s, early) && Exec(s, early).watch == Done && !Exec(s, early).named
  {
    var a1 := Apply(s, WatchClear);
    var a2 := Apply(a1, WatchClose);
    RunCons(a2, Assign, []);
    RunCons(a1, WatchClose, [Assign]);
    RunCons(s, WatchClear, [WatchClose, Assign]);
    var b1 := Apply(s, Assign);
    var b2 := Apply(b1, WatchClear);
    RunCons(b2, WatchClose, []);
    RunCons(b1, WatchClear, [WatchClose]);
    RunCons(s, Assign, [WatchClear, WatchClose]);
  }
}

/** Starting a strategy of execution/systemd.go again: its `watch` goroutines read chIn and
    chOut when they get to them, not when they are started. The waiter is reduced to when
    it closes the channel of a unit; `SystemdProtocol` is about that. */
module SystemdRestart {
  import opened Text

  /** Calls of Add that succeeded are numbered; a number stands for the unit, the channel
      Add returned and the chOut made for it. */
  type Gen = nat

  datatype Goroutine =
    | Spawned
    | Waiting(gen: Gen)   // has read chIn
    | Stuck               // has read chIn when it was nil
    | Woken               // past `<-s.chIn`
    | Cleared             // unitName set to ""
    | Done

  datatype Pc = Resting | Subscribed(gen: Gen) | Launched(gen: Gen)

  datatype State = State(
    gens: Gen,                  // generations so far
    chIn: Option<Gen>,
    chOut: Option<Gen>,
    unitName: Option<Gen>,      // None for ""
    goroutines: seq<Goroutine>,
    pc: Pc,                     // where FindRunning or Start is
    exited: set<Gen>,           // unit exited and its channel closed
    removed: set<Gen>,          // taken out of the waiter again by FindRunning
    closedOut: set<Gen>,
    panicked: bool)             // chOut closed twice, or nil closed

  datatype Step =
    | Add(ok: bool)
    | Abandon                   // FindRunning: the query fails
    | GiveUp                    // FindRunning: the unit is not running
    | Launch                    // chOut made, goroutine started
    | Name
    | Read(i: nat)
    | Wake(i: nat)
    | Clear(i: nat)
    | CloseOut(i: nat)
    | Exit(g: Gen)

  predicate At(s: State, i: nat, g: Goroutine) { i < |s.goroutines| && s.goroutines[i] == g }

  predicate Enabled(s: State, a: Step) {
    && !s.panicked
    && match a
       case Add(_) => s.pc == Resting
       case Abandon => s.pc.Subscribed?
       case GiveUp => s.pc.Subscribed?
       case Launch => s.pc.Subscribed?
       case Name => s.pc.Launched?
       case Read(i) => At(s, i, Spawned)
       case Wake(i) => i < |s.goroutines| && s.goroutines[i].Waiting? && s.goroutines[i].gen in s.exited
       case Clear(i) => At(s, i, Woken)
       case CloseOut(i) => At(s, i, Cleared)
       case Exit(g) => g < s.gens && g !in s.removed
  }

  function Set(s: State, i: nat, g: Goroutine): State
    requires i < |s.goroutines|
  {
    s.(goroutines := s.goroutines[i := g])
  }

  function Apply(s: State, a: Step): State
    requires Enabled(s, a)
  {
    match a
    case Add(ok) =>
      if ok then s.(gens := s.gens + 1, chIn := Some(s.gens), pc := Subscribed(s.gens)) else s.(chIn := None)
    case Abandon => s.(pc := Resting)
    case GiveUp =>
      s.(chIn := None, chOut := None, unitName := None, pc := Resting, removed := s.removed + {s.pc.gen})
    case Launch => s.(chOut := Some(s.pc.gen), goroutines := s.goroutines + [Spawned], pc := Launched(s.pc.gen))
    case Name => s.(unitName := Some(s.pc.gen), pc := Resting)
    case Read(i) => Set(s, i, if s.chIn.Some? then Waiting(s.chIn.value) else Stuck)
    case Wake(i) => Set(s, i, Woken)
    case Clear(i) => Set(s, i, Cleared).(unitName := None)
    case CloseOut(i) =>
      if s.chOut.None? || s.chOut.value in s.closedOut then s.(panicked := true)
      else Set(s, i, Done).(closedOut := s.closedOut + {s.chOut.value})
    case Exit(g) => s.(exited := s.exited + {g})
  }

  predicate CanRun(s: State, t: seq<Step>)
    decreases t
  {
    t == [] || (Enabled(s, t[0]) && CanRun(Apply(s, t[0]), t[1..]))
  }

  function Exec(s: State, t: seq<Step>): State
    requires CanRun(s, t)
    decreases t
  {
    if t == [] then s else Exec(Apply(s, t[0]), t[1..])
  }

  lemma RunCons(s: State, a: Step, t: seq<Step>)
    requires Enabled(s, a) && CanRun(Apply(s, a), t)
    ensures CanRun(s, [a] + t) && Exec(s, [a] + t) == Exec(Apply(s, a), t)
  {
    assert ([a] + t)[1..] == t;
  }

  lemma {:induction false} RunConcat(s: State, t: seq<Step>, u: seq<Step>)
    requires CanRun(s, t) && CanRun(Exec(s, t), u)
    ensures CanRun(s, t + u) && Exec(s, t + u) == Exec(Exec(s, t), u)
    decreases t
  {
    if t == [] {
      assert t + u == u;
    } else {
      RunConcat(Apply(s, t[0]), t[1..], u);
      RunCons(s, t[0], t[1..] + u);
      assert t + u == [t[0]] + (t[1..] + u);
    }
  }

  /** Nothing speaks of a generation not yet made. */
  ghost predicate Sane(s: State) {
    && (forall g :: g in s.exited || g in s.closedOut || g in s.removed ==> g < s.gens)
    && (s.pc != Resting ==> s.pc.gen < s.gens)
    && (s.chIn.Some? ==> s.chIn.value < s.gens) && (s.chOut.Some? ==> s.chOut.value < s.gens)
    && (forall i :: 0 <= i < |s.goroutines| && s.goroutines[i].Waiting? ==> s.goroutines[i].gen < s.gens)
  }

  lemma SaneStep(s: State, a: Step)
    requires Sane(s) && Enabled(s, a)
    ensures Sane(Apply(s, a))
  {
  }

  lemma {:induction false} SaneRun(s: State, t: seq<Step>)
    requires Sane(s) && CanRun(s, t)
    ensures Sane(Exec(s, t))
    decreases t
  {
    if t != [] {
      SaneStep(s, t[0]);
      SaneRun(Apply(s, t[0]), t[1..]);
    }
  }

  // ---------- one generation ----------

  /** What is promised of generation `c`: no panic, its chOut is closed only after its unit
      has exited, and while the unit runs the strategy knows its name. */
  predicate Good(u: State, c: Gen) {
    && !u.panicked
    && (c in u.closedOut ==> c in u.exited)
    && (u.pc == Resting && u.chOut == Some(c) && c !in u.exited ==> u.unitName == Some(c))
  }

  predicate NoAdd(t: seq<Step>) { forall a :: a in t ==> !a.Add? }

  ghost predicate AlwaysGood(s: State) {
    forall t: seq<Step> :: CanRun(s, [Add(true)] + t) && NoAdd(t) ==> Good(Exec(s, [Add(true)] + t), s.gens)
  }

  /** Finished, or waiting for what cannot come any more. */
  predicate Over(s: State, i: nat)
    requires i < |s.goroutines|
  {
    var g := s.goroutines[i];
    g.Done? || g.Stuck? || (g.Waiting? && g.gen in s.removed && g.gen !in s.exited)
  }

  /** No goroutine of an earlier call is still to run. */
  predicate NoStray(s: State) { forall i :: 0 <= i < |s.goroutines| ==> Over(s, i) }

  // ---------- without strays ----------

  /** Generation `c` has been added: all goroutines are over, but the last once it has been
      launched. */
  ghost predicate Own(s: State, c: Gen, launched: bool) {
    && s.gens == c + 1 && !s.panicked && Sane(s) && (s.pc != Resting ==> s.pc.gen == c)
    && (forall i :: 0 <= i < |s.goroutines| - (if launched then 1 else 0) ==> Over(s, i))
    && if launched then After(s, c) else Before(s, c)
  }

  predicate Before(s: State, c: Gen) {
    && c !in s.closedOut && s.chOut != Some(c) && !s.pc.Launched?
    && (s.pc.Subscribed? ==> s.chIn == Some(c))
  }

  predicate After(s: State, c: Gen) {
    && s.goroutines != [] && !s.pc.Subscribed? && s.chIn == Some(c) && s.chOut == Some(c)
    && var g := s.goroutines[|s.goroutines| - 1];
       && g != Stuck && (g.Waiting? ==> g.gen == c)
       && (g == Woken || g == Cleared || g == Done ==> c in s.exited)
       && (c in s.closedOut ==> g == Done)
       && (s.pc == Resting && c !in s.exited ==> s.unitName == Some(c))
  }

  lemma OverStays(s: State, a: Step, i: nat)
    requires Enabled(s, a) && i < |s.goroutines| && Over(s, i)
    ensures i < |Apply(s, a).goroutines| && Over(Apply(s, a), i)
  {
  }

  lemma OwnStep(s: State, c: Gen, launched: bool, a: Step)
    requires Own(s, c, launched) && Enabled(s, a) && !a.Add?
    ensures Own(Apply(s, a), c, launched || a.Launch?)
  {
    var t := Apply(s, a);
    if a.Read? || a.Wake? || a.Clear? || a.CloseOut? {
      assert a.i < |s.goroutines| - (if launched then 1 else 0) ==> Over(s, a.i);
    }
    forall i | 0 <= i < |t.goroutines| - (if launched || a.Launch? then 1 else 0) ensures Over(t, i) {
      OverStays(s, a, i);
    }
  }

  lemma {:induction false} OwnRun(s: State, c: Gen, launched: bool, t: seq<Step>)
    requires Own(s, c, launched) && CanRun(s, t) && NoAdd(t)
    ensures Good(Exec(s, t), c)
    decreases t
  {
    if t != [] {
      assert t[0] in t && forall a :: a in t[1..] ==> a in t;
      OwnStep(s, c, launched, t[0]);
      OwnRun(Apply(s, t[0]), c, launched || t[0].Launch?, t[1..]);
    }
  }

  lemma OwnAtFirst(s: State)
    requires Sane(s) && !s.panicked && s.pc == Resting && NoStray(s)
    ensures Own(Apply(s, Add(true)), s.gens, false)
  {
    forall i | 0 <= i < |s.goroutines| ensures Over(Apply(s, Add(true)), i) {
      OverStays(s, Add(true), i);
    }
  }

  // ---------- with a stray ----------

  /** One goroutine gets as far as closing chOut. */
  function Finish(s: State, i: nat): seq<Step>
    requires i < |s.goroutines|
  {
    match s.goroutines[i]
    case Spawned => []
    case Waiting(g) => (if g in s.exited then [] else [Exit(g)]) + [Wake(i), Clear(i), CloseOut(i)]
    case Woken => [Clear(i), CloseOut(i)]
    case Cleared => [CloseOut(i)]
    case _ => []
  }

  predicate Finished(s: State, i: nat, u: State)
    requires i < |s.goroutines|
  {
    && (if s.chOut.None? || s.chOut.value in s.closedOut then u.panicked else
          && !u.panicked && u.closedOut == s.closedOut + {s.chOut.value} && u.chOut == s.chOut
          && u.goroutines == s.goroutines[i := Done] && u.gens == s.gens)
    && u.exited == s.exited + (if s.goroutines[i].Waiting? then {s.goroutines[i].gen} else {})
  }

  lemma ClearedFinishes(s: State, i: nat)
    requires !s.panicked && At(s, i, Cleared)
    ensures CanRun(s, [CloseOut(i)]) && Finished(s, i, Exec(s, [CloseOut(i)]))
  {
    RunCons(s, CloseOut(i), []);
  }

  lemma WokenFinishes(s: State, i: nat)
    requires !s.panicked && At(s, i, Woken)
    ensures CanRun(s, [Clear(i), CloseOut(i)]) && Finished(s, i, Exec(s, [Clear(i), CloseOut(i)]))
  {
    var s1 := Apply(s, Clear(i));
    ClearedFinishes(s1, i);
    RunCons(s, Clear(i), [CloseOut(i)]);
  }

  lemma ExitedFinishes(s: State, i: nat)
    requires !s.panicked && i < |s.goroutines| && s.goroutines[i].Waiting? && s.goroutines[i].gen in s.exited
    ensures CanRun(s, [Wake(i), Clear(i), CloseOut(i)])
    ensures Finished(s, i, Exec(s, [Wake(i), Clear(i), CloseOut(i)]))
  {
    var s1 := Apply(s, Wake(i));
    WokenFinishes(s1, i);
    RunCons(s, Wake(i), [Clear(i), CloseOut(i)]);
  }

  lemma FinishRuns(s: State, i: nat)
    requires !s.panicked && i < |s.goroutines| && !Over(s, i) && !s.goroutines[i].Spawned?
    requires s.goroutines[i].Waiting? ==> s.goroutines[i].gen < s.gens
    ensures CanRun(s, Finish(s, i)) && NoAdd(Finish(s, i)) && Finished(s, i, Exec(s, Finish(s, i)))
  {
    match s.goroutines[i]
    case Waiting(g) =>
      if g in s.exited {
        ExitedFinishes(s, i);
        assert Finish(s, i) == [Wake(i), Clear(i), CloseOut(i)];
      } else {
        var s1 := Apply(s, Exit(g));
        ExitedFinishes(s1, i);
        RunCons(s, Exit(g), [Wake(i), Clear(i), CloseOut(i)]);
      }
    case Woken => WokenFinishes(s, i);
    case Cleared => ClearedFinishes(s, i);
  }

  lemma Started(s: State)
    requires Sane(s) && !s.panicked && s.pc == Resting
    ensures CanRun(s, [Add(true), Launch])
    ensures var u := Exec(s, [Add(true), Launch]);
            u == s.(gens := s.gens + 1, chIn := Some(s.gens), chOut := Some(s.gens),
                    goroutines := s.goroutines + [Spawned], pc := Launched(s.gens))
  {
    RunCons(Apply(s, Add(true)), Launch, []);
    RunCons(s, Add(true), [Launch]);
  }

  /** A stray that has read its channel closes the chOut of the new process before that has
      exited. */
  lemma StrayClosesEarly(s: State, i: nat) returns (t: seq<Step>)
    requires Sane(s) && !s.panicked && s.pc == Resting && i < |s.goroutines|
    requires !s.goroutines[i].Spawned? && !Over(s, i)
    ensures CanRun(s, [Add(true)] + t) && NoAdd(t)
    ensures var u := Exec(s, [Add(true)] + t); s.gens in u.closedOut && s.gens !in u.exited
  {
    Started(s);
    var s1 := Exec(s, [Add(true), Launch]);
    FinishRuns(s1, i);
    RunConcat(s, [Add(true), Launch], Finish(s1, i));
    t := [Launch] + Finish(s1, i);
    assert [Add(true)] + t == [Add(true), Launch] + Finish(s1, i);
  }

  /** A stray that has not run at all reads the new chIn: both goroutines wake up and close
      the same chOut, which panics. */
  lemma StrayPanics(s: State, i: nat) returns (t: seq<Step>)
    requires Sane(s) && !s.panicked && s.pc == Resting && At(s, i, Spawned)
    ensures CanRun(s, [Add(true)] + t) && NoAdd(t) && Exec(s, [Add(true)] + t).panicked
  {
    Started(s);
    var s1 := Exec(s, [Add(true), Launch]);
    var last := |s.goroutines|;
    var both := [Read(i), Read(last)];
    RunCons(Apply(s1, Read(i)), Read(last), []);
    RunCons(s1, Read(i), [Read(last)]);
    var s2 := Exec(s1, both);
    var rest := BothFinish(s2, i, last, s.gens);
    RunConcat(s1, both, rest);
    RunConcat(s, [Add(true), Launch], both + rest);
    t := [Launch] + (both + rest);
    assert [Add(true)] + t == [Add(true), Launch] + (both + rest);
  }

  lemma BothFinish(s: State, i: nat, j: nat, c: Gen) returns (t: seq<Step>)
    requires !s.panicked && i != j && At(s, i, Waiting(c)) && At(s, j, Waiting(c)) && c < s.gens
    requires s.chOut == Some(c) && c !in s.closedOut && c !in s.removed
    ensures CanRun(s, t) && NoAdd(t) && Exec(s, t).panicked
  {
    FinishRuns(s, i);
    var s1 := Exec(s, Finish(s, i));
    FinishRuns(s1, j);
    RunConcat(s, Finish(s, i), Finish(s1, j));
    t := Finish(s, i) + Finish(s1, j);
  }

  /** The exact condition: a call of Start or FindRunning whose Add succeeds keeps its
      promises in every continuation iff no goroutine of an earlier call is still to run. */
  lemma RestartIsSafeExactly(s: State)
    requires Sane(s) && !s.panicked && s.pc == Resting
    ensures AlwaysGood(s) <==> NoStray(s)
  {
    if NoStray(s) {
      forall t: seq<Step> | CanRun(s, [Add(true)] + t) && NoAdd(t)
        ensures Good(Exec(s, [Add(true)] + t), s.gens)
      {
        assert ([Add(true)] + t)[1..] == t;
        OwnAtFirst(s);
        OwnRun(Apply(s, Add(true)), s.gens, false, t);
      }
    } else {
      var i :| 0 <= i < |s.goroutines| && !Over(s, i);
      var t;
      if s.goroutines[i].Spawned? {
        t := StrayPanics(s, i);
      } else {
        t := StrayClosesEarly(s, i);
      }
      assert !Good(Exec(s, [Add(true)] + t), s.gens);
    }
  }

  lemma UpToClear(s: State, i: nat, c: Gen)
    requires !s.panicked && s.pc == Launched(c) && s.chIn == Some(c) && At(s, i, Spawned)
    requires c < s.gens && c !in s.removed
    ensures CanRun(s, [Name, Read(i), Exit(c), Wake(i), Clear(i)])
    ensures Exec(s, [Name, Read(i), Exit(c), Wake(i), Clear(i)])
         == s.(pc := Resting, unitName := None, exited := s.exited + {c}, goroutines := s.goroutines[i := Cleared])
  {
    var s1 := Apply(s, Name);
    var s2 := Apply(s1, Read(i));
    var s3 := Apply(s2, Exit(c));
    var s4 := Apply(s3, Wake(i));
    RunCons(s4, Clear(i), []);
    RunCons(s3, Wake(i), [Clear(i)]);
    RunCons(s2, Exit(c), [Wake(i), Clear(i)]);
    RunCons(s1, Read(i), [Exit(c), Wake(i), Clear(i)]);
    RunCons(s, Name, [Read(i), Exit(c), Wake(i), Clear(i)]);
  }

  /** A stray is reachable from every state in which Start may be called: the exit has been
      reported, `watch` has cleared the name, so that IsRunning answers false, and has not yet
      closed chOut when Start is called again. */
  lemma StrayIsReachable(s: State) returns (t: seq<Step>)
    requires Sane(s) && !s.panicked && s.pc == Resting
    ensures CanRun(s, t)
    ensures var u := Exec(s, t);
            Sane(u) && !u.panicked && u.pc == Resting && u.unitName == None && !AlwaysGood(u)
  {
    Started(s);
    var s1 := Exec(s, [Add(true), Launch]);
    var i := |s.goroutines|;
    var rest := [Name, Read(i), Exit(s.gens), Wake(i), Clear(i)];
    UpToClear(s1, i, s.gens);
    RunConcat(s, [Add(true), Launch], rest);
    t := [Add(true), Launch] + rest;
    var u := Exec(s, t);
    assert !Over(u, i);
    RestartIsSafeExactly(u);
  }

  // ---------- calls that fail or find the unit gone ----------

  /** With chIn nil it will never close anything: it has not read chIn yet, or is over. */
  predicate Harmless(s: State, i: nat)
    requires i < |s.goroutines|
  {
    Over(s, i) || s.goroutines[i].Spawned?
  }

  ghost predicate AlwaysSilent(s: State) {
    forall t: seq<Step> :: CanRun(s, t) && NoAdd(t) ==> Exec(s, t).closedOut == s.closedOut && !Exec(s, t).panicked
  }

  ghost predicate NeverNamed(s: State) {
    forall t: seq<Step> :: CanRun(s, t) && NoAdd(t) ==> Exec(s, t).unitName == None
  }

  lemma HarmlessStep(s: State, a: Step, i: nat)
    requires s.chIn == None && s.pc == Resting && Enabled(s, a) && !a.Add?
    requires i < |s.goroutines| && Harmless(s, i)
    ensures i < |Apply(s, a).goroutines| && Harmless(Apply(s, a), i)
  {
    if Over(s, i) {
      OverStays(s, a, i);
    }
  }

  lemma {:induction false} SilentRun(s: State, t: seq<Step>)
    requires s.chIn == None && s.pc == Resting && CanRun(s, t) && NoAdd(t)
    requires forall i :: 0 <= i < |s.goroutines| ==> Harmless(s, i)
    ensures Exec(s, t).closedOut == s.closedOut && Exec(s, t).panicked == s.panicked
    decreases t
  {
    if t != [] {
      var a := t[0];
      assert a in t && forall b :: b in t[1..] ==> b in t;
      assert a.Read? || a.Wake? || a.Clear? || a.CloseOut? ==> Harmless(s, a.i);
      forall i | 0 <= i < |Apply(s, a).goroutines| ensures Harmless(Apply(s, a), i) {
        HarmlessStep(s, a, i);
      }
      SilentRun(Apply(s, a), t[1..]);
    }
  }

  lemma {:induction false} NamelessRun(s: State, t: seq<Step>)
    requires s.unitName == None && s.pc == Resting && CanRun(s, t) && NoAdd(t)
    ensures Exec(s, t).unitName == None
    decreases t
  {
    if t != [] {
      assert t[0] in t && forall b :: b in t[1..] ==> b in t;
      NamelessRun(Apply(s, t[0]), t[1..]);
    }
  }

  /** Otherwise it can still close chOut, or nil, or what is closed already. */
  lemma NotSilent(s: State, i: nat)
    requires Sane(s) && !s.panicked && i < |s.goroutines| && !Harmless(s, i)
    ensures !AlwaysSilent(s)
    ensures s.chOut == None ==> exists t: seq<Step> :: CanRun(s, t) && NoAdd(t) && Exec(s, t).panicked
  {
    FinishRuns(s, i);
    var u := Exec(s, Finish(s, i));
    assert s.chOut.Some? && s.chOut.value !in s.closedOut ==> s.chOut.value in u.closedOut;
  }

  /** A Start or FindRunning whose Add fails leaves chIn nil. From then on no channel is ever
      closed, not even that of an earlier start whose process exits, exactly when every
      goroutine is over or has not yet read chIn: one that reads it now waits for ever. */
  lemma FailedAddSilencesExactly(s: State)
    requires Sane(s) && !s.panicked && s.pc == Resting
    ensures AlwaysSilent(Apply(s, Add(false)))
            <==> forall i :: 0 <= i < |s.goroutines| ==> Over(s, i) || s.goroutines[i].Spawned?
  {
    var u := Apply(s, Add(false));
    assert forall i :: 0 <= i < |s.goroutines| ==>
      (Harmless(u, i) <==> Over(s, i) || s.goroutines[i].Spawned?);
    if i :| 0 <= i < |s.goroutines| && !Harmless(u, i) {
      NotSilent(u, i);
    } else {
      forall t: seq<Step> | CanRun(u, t) && NoAdd(t)
        ensures Exec(u, t).closedOut == u.closedOut && !Exec(u, t).panicked
      {
        SilentRun(u, t);
      }
    }
  }

  /** A FindRunning that finds its unit gone forgets everything. IsRunning answers false from
      then on, and a goroutine of an earlier start closes a nil channel, which panics, exactly
      when one is past reading chIn and not over. */
  lemma GiveUpIsSafeExactly(s: State)
    requires Sane(s) && !s.panicked && s.pc.Subscribed?
    ensures var u := Apply(s, GiveUp);
            && NeverNamed(u)
            && ((forall t: seq<Step> :: CanRun(u, t) && NoAdd(t) ==> !Exec(u, t).panicked)
                <==> forall i :: 0 <= i < |u.goroutines| ==> Over(u, i) || u.goroutines[i].Spawned?)
  {
    var u := Apply(s, GiveUp);
    forall t: seq<Step> | CanRun(u, t) && NoAdd(t) ensures Exec(u, t).unitName == None {
      NamelessRun(u, t);
    }
    assert forall i :: 0 <= i < |u.goroutines| ==> (Harmless(u, i) <==> Over(u, i) || u.goroutines[i].Spawned?);
    if i :| 0 <= i < |u.goroutines| && !Harmless(u, i) {
      NotSilent(u, i);
    } else {
      forall t: seq<Step> | CanRun(u, t) && NoAdd(t) ensures !Exec(u, t).panicked {
        SilentRun(u, t);
      }
    }
  }

  /** Goroutine `i`, the last that is not over, reads the channel of generation `g`. */
  predicate Awaits(s: State, i: nat, g: Gen, c: Gen) {
    && s.pc == Resting && s.chIn == Some(g) && s.chOut == Some(c) && i < |s.goroutines|
    && (forall j :: 0 <= j < |s.goroutines| && j != i ==> Over(s, j))
    && (s.goroutines[i] == Spawned || s.goroutines[i] == Waiting(g) || g in s.exited)
    && (c in s.closedOut ==> g in s.exited)
  }

  lemma AwaitsStep(s: State, a: Step, i: nat, g: Gen, c: Gen)
    requires Awaits(s, i, g, c) && Enabled(s, a) && !a.Add?
    ensures Awaits(Apply(s, a), i, g, c)
  {
    assert (a.Read? || a.Wake? || a.Clear? || a.CloseOut?) && a.i != i ==> Over(s, a.i);
    forall j | 0 <= j < |Apply(s, a).goroutines| && j != i ensures Over(Apply(s, a), j) {
      OverStays(s, a, j);
    }
  }

  lemma {:induction false} AwaitsRun(s: State, i: nat, g: Gen, c: Gen, t: seq<Step>)
    requires Awaits(s, i, g, c) && CanRun(s, t) && NoAdd(t)
    ensures Awaits(Exec(s, t), i, g, c)
    decreases t
  {
    if t != [] {
      assert t[0] in t && forall b :: b in t[1..] ==> b in t;
      AwaitsStep(s, t[0], i, g, c);
      AwaitsRun(Apply(s, t[0]), i, g, c, t[1..]);
    }
  }

  /** A FindRunning whose query fails leaves its channel in chIn. The goroutine of an earlier
      start that has not yet read chIn then waits for that one: it can still close the earlier
      chOut, but in no continuation before the unit of the abandoned channel is reported. */
  lemma AbandonedIsAwaited(s: State, i: nat, c: Gen) returns (t: seq<Step>)
    requires Sane(s) && !s.panicked && s.pc.Subscribed? && s.chIn == Some(s.pc.gen) && s.pc.gen !in s.removed
    requires At(s, i, Spawned) && (forall j :: 0 <= j < |s.goroutines| && j != i ==> Over(s, j))
    requires s.chOut == Some(c) && c !in s.closedOut
    ensures CanRun(s, [Abandon] + t) && NoAdd(t) && c in Exec(s, [Abandon] + t).closedOut
    ensures forall r: seq<Step> :: CanRun(s, [Abandon] + r) && NoAdd(r) && c in Exec(s, [Abandon] + r).closedOut ==>
              s.pc.gen in Exec(s, [Abandon] + r).exited
  {
    var g, u := s.pc.gen, Apply(s, Abandon);
    forall j | 0 <= j < |s.goroutines| && j != i ensures Over(u, j) {
      OverStays(s, Abandon, j);
    }
    forall r: seq<Step> | CanRun(s, [Abandon] + r) && NoAdd(r) && c in Exec(s, [Abandon] + r).closedOut
      ensures g in Exec(s, [Abandon] + r).exited
    {
      assert ([Abandon] + r)[1..] == r;
      AwaitsRun(u, i, g, c, r);
    }
    var v := Apply(u, Read(i));
    FinishRuns(v, i);
    RunCons(u, Read(i), Finish(v, i));
    t := [Read(i)] + Finish(v, i);
    RunCons(s, Abandon, t);
  }
}

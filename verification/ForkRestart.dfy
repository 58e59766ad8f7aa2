/** Starting a strategy of execution/fork.go again while a goroutine of an earlier start
    is still to run: it closes whatever pidFd is by then. */
module ForkRestart {
  import opened Text
  import opened ForkOwnership
  import E = Epoll

  // ---------- what the waiter sees of a run ----------

  lemma {:induction false} Project(s: State, t: seq<Step>) returns (u: seq<E.Step>)
    requires CanRun(s, t)
    ensures E.CanRun(s.w, u) && E.Exec(s.w, u) == Exec(s, t).w
    decreases t
  {
    if t == [] {
      u := [];
    } else {
      var s1 := Apply(s, t[0]);
      WaiterStepIs(s, t[0]);
      u := Project(s1, t[1..]);
      E.RunConcat(s.w, WaiterStep(s, t[0]), u);
      u := WaiterStep(s, t[0]) + u;
    }
  }

  /** The other way round, for steps that name no descriptor. */
  function Others(t: seq<E.Step>): seq<Step> {
    if t == [] then [] else [Other(t[0])] + Others(t[1..])
  }

  lemma {:induction false} Lift(s: State, t: seq<E.Step>)
    requires E.CanRun(s.w, t) && forall a :: a in t ==> a.Exit? || a.Wait? || E.IsLoopStep(a)
    ensures CanRun(s, Others(t)) && Exec(s, Others(t)) == s.(w := E.Exec(s.w, t))
    ensures NoLaunch(Others(t)) && Tame(Others(t))
    decreases t
  {
    if t != [] {
      assert t[0] in t && forall a :: a in t[1..] ==> a in t;
      var s1 := Apply(s, Other(t[0]));
      Lift(s1, t[1..]);
      RunCons(s, Other(t[0]), Others(t[1..]));
    }
  }

  predicate NoLaunch(t: seq<Step>) { forall a :: a in t ==> !a.Launch? }

  /** Nobody else closes a descriptor, and Close's Remove meets no resource failure. */
  predicate Tame(t: seq<Step>) {
    forall a :: a in t ==> (a.Other? ==> !a.a.CloseFd?) && (a.CloseBegin? ==> a.sysOk)
  }

  // ---------- a goroutine that can run can be made to ----------

  /** The steps that close channel `c`, by the exit of its process and the loop alone. */
  lemma CloseChannel(w: E.State, c: E.Chan) returns (t: seq<E.Step>)
    requires E.Safe(w) && E.Tracked(w) && E.Alive(w) && Reachable(w, c)
    ensures E.CanRun(w, t) && forall a :: a in t ==> a.Exit? || a.Wait? || E.IsLoopStep(a)
    ensures var v := E.Exec(w, t);
            && c in v.closed && v.run == E.Waiting && E.Safe(v) && E.Tracked(v)
            && v.fdmap == w.fdmap && v.files == w.files && v.nextChan == w.nextChan
  {
    if c in w.closed {
      t := E.FinishBatch(w);
    } else {
      var f :| f in w.fdmap && w.fdmap[f] == c;
      t := CloseMapped(w, f);
    }
    E.LoopRunIsDisciplined(w, t);
    E.TrackedRun(w, t);
  }

  lemma CloseMapped(w: E.State, f: E.Fd) returns (t: seq<E.Step>)
    requires E.Safe(w) && E.Tracked(w) && E.Alive(w) && E.Watched(w, f)
    ensures E.CanRun(w, t) && forall a :: a in t ==> a.Exit? || a.Wait? || E.IsLoopStep(a)
    ensures var v := E.Exec(w, t);
            && w.fdmap[f] in v.closed && v.run == E.Waiting
            && v.fdmap == w.fdmap && v.files == w.files && v.nextChan == w.nextChan
  {
    assert E.Covered(w, f);
    var exit := E.Exit(w.files[f]);
    E.SafeStep(w, exit);
    E.TrackedStep(w, exit);
    var w1 := E.Apply(w, exit);
    t := E.WakeupIsDelivered(w1, f);
    E.RunCons(w, exit, t);
    t := [exit] + t;
  }

  lemma ReadRuns(s: State, i: nat)
    requires i < |s.goroutines| && Target(s, i).Some?
    ensures var read := if s.goroutines[i].Spawned? then [Read(i)] else [];
            && CanRun(s, read) && Exec(s, read) == s.(goroutines := s.goroutines[i := Blocked(Target(s, i).value)])
  {
    if s.goroutines[i].Spawned? {
      var t: seq<Step> := [];
      RunCons(s, Read(i), t);
      assert [Read(i)] + t == [Read(i)];
    } else {
      assert s.goroutines[i := Blocked(Target(s, i).value)] == s.goroutines;
    }
  }

  /** Goroutine `i` reads its channel if it has not, and the channel closes. */
  lemma MakeReady(s: State, i: nat) returns (t: seq<Step>)
    requires E.Safe(s.w) && E.Tracked(s.w) && E.Alive(s.w)
    requires i < |s.goroutines| && Target(s, i).Some? && Reachable(s.w, Target(s, i).value)
    ensures CanRun(s, t) && NoLaunch(t) && Tame(t)
    ensures var u := Exec(s, t); var c := Target(s, i).value;
            && u == s.(w := u.w, goroutines := s.goroutines[i := Blocked(c)])
            && c in u.w.closed && u.w.run == E.Waiting && E.Safe(u.w) && E.Tracked(u.w)
            && u.w.fdmap == s.w.fdmap && u.w.files == s.w.files && u.w.nextChan == s.w.nextChan
  {
    var c := Target(s, i).value;
    var read := if s.goroutines[i].Spawned? then [Read(i)] else [];
    var s1 := s.(goroutines := s.goroutines[i := Blocked(c)]);
    ReadRuns(s, i);
    var t1 := CloseChannel(s.w, c);
    Lift(s1, t1);
    RunConcat(s, read, Others(t1));
    t := read + Others(t1);
  }

  // ---------- the two runs ----------

  /** A goroutine that can still run. */
  ghost predicate Stray(s: State, i: nat) {
    i < |s.goroutines| && Target(s, i).Some? && Reachable(s.w, Target(s, i).value)
  }

  /** The pidfd is being watched, and goroutine `i` is about to run. */
  ghost predicate Poised(s: State, i: nat) {
    && Inv(s) && LockFree(s) && s.w.run == E.Waiting && s.closer == Idle && s.closes == 0 && s.pidFd != -1
    && s.watched && Mapped(s) && s.quit.value !in s.w.closed
    && i < |s.goroutines| && s.goroutines[i].Blocked? && s.goroutines[i].ch in s.w.closed
  }

  /** The same before the new pidfd is added to the waiter. */
  ghost predicate AlmostPoised(s: State, i: nat) {
    && Inv(s) && s.opening && s.w.run == E.Waiting && s.closes == 0
    && s.pidFd in s.w.files && s.pidFd !in s.w.fdmap
    && i < |s.goroutines| && s.goroutines[i].Blocked? && s.goroutines[i].ch in s.w.closed
  }

  lemma WatchPoises(s: State, i: nat)
    requires AlmostPoised(s, i)
    ensures Enabled(s, Watch(true)) && Poised(Apply(s, Watch(true)), i)
  {
    assert s.pidFd in s.w.interest ==> E.Registered(s.w, s.pidFd);
    InvStep(s, Watch(true));
    assert s.w.nextChan !in s.w.closed;
  }

  lemma LaunchAlmostPoises(s: State, i: nat, f: E.Fd, p: E.Proc) returns (t: seq<Step>)
    requires Inv(s) && E.Tracked(s.w) && E.Alive(s.w) && Stray(s, i)
    requires Enabled(s, Launch(f, p)) && f !in s.w.fdmap
    ensures CanRun(Apply(s, Launch(f, p)), t) && NoLaunch(t) && Tame(t)
    ensures AlmostPoised(Exec(Apply(s, Launch(f, p)), t), i)
  {
    var s1 := Apply(s, Launch(f, p));
    InvStep(s, Launch(f, p));
    E.TrackedStep(s.w, E.Open(f, p));
    t := MakeReady(s1, i);
    InvRun(s1, t);
  }

  /** After a launch with a stray goroutine, it can be about to run while the new process
      is being watched. */
  lemma StrayGetsReady(s: State, i: nat, f: E.Fd, p: E.Proc) returns (t: seq<Step>)
    requires Inv(s) && E.Tracked(s.w) && E.Alive(s.w) && Stray(s, i)
    requires Enabled(s, Launch(f, p)) && f !in s.w.fdmap
    ensures CanRun(s, [Launch(f, p)] + t) && NoLaunch(t) && Tame(t)
    ensures Poised(Exec(s, [Launch(f, p)] + t), i)
  {
    var s1 := Apply(s, Launch(f, p));
    var t1 := LaunchAlmostPoises(s, i, f, p);
    var s2 := Exec(s1, t1);
    WatchPoises(s2, i);
    RunCons(s2, Watch(true), []);
    RunConcat(s1, t1, [Watch(true)]);
    t := t1 + [Watch(true)];
    RunCons(s, Launch(f, p), t);
  }

  /** A goroutine that is about to run after Close has done its part closes the pidfd again. */
  lemma LateClose(s: State, i: nat)
    requires Accounts(s) && LockFree(s) && E.MutexFree(s.w) && s.closer == Idle && s.pidFd != -1 && s.closes == 0
    requires i < |s.goroutines| && s.goroutines[i].Blocked? && s.goroutines[i].ch in s.w.closed
    ensures var t := [CloseBegin(true), CloseEnd, Reap(i)];
            && CanRun(s, t) && NoLaunch(t) && Exec(s, t).closes == 2
            && Exec(s, t).closer == Finished(E.RemoveOk(s.w, s.pidFd, true))
  {
    var s1 := Apply(s, CloseBegin(true));
    assert s1.w.closed == s.w.closed;
    var s2 := Apply(s1, CloseEnd);
    assert s2.w.closed == s.w.closed;
    RunCons(s2, Reap(i), []);
    RunCons(s1, CloseEnd, [Reap(i)]);
    RunCons(s, CloseBegin(true), [CloseEnd, Reap(i)]);
  }

  /** The second close can hit a descriptor that another client opened in between. */
  lemma SecondCloseHitsAnother(s: State, i: nat, q: E.Proc)
    requires Inv(s) && LockFree(s) && E.MutexFree(s.w) && s.closer == Idle && s.pidFd != -1 && s.closes == 0
    requires i < |s.goroutines| && s.goroutines[i].Blocked? && s.goroutines[i].ch in s.w.closed
    ensures var f := s.pidFd;
            var t := [CloseBegin(true), CloseEnd, Other(E.Open(f, q)), Reap(i)];
            CanRun(s, t) && f !in Exec(s, t).w.files && Exec(s, t).closes == 2
  {
    var s1 := Apply(s, CloseBegin(true));
    assert s1.w.closed == s.w.closed && s1.w.files == s.w.files;
    var s2 := Apply(s1, CloseEnd);
    assert s2.w.closed == s.w.closed;
    ReopenRuns(s2, i, q);
    var rest := [Other(E.Open(s.pidFd, q)), Reap(i)];
    RunCons(s1, CloseEnd, rest);
    RunCons(s, CloseBegin(true), [CloseEnd] + rest);
    assert [CloseBegin(true)] + ([CloseEnd] + rest) == [CloseBegin(true), CloseEnd] + rest;
  }

  lemma ReopenRuns(s: State, i: nat, q: E.Proc)
    requires LockFree(s) && s.pidFd != -1 && s.pidFd !in s.w.files && s.closes == 1
    requires i < |s.goroutines| && s.goroutines[i].Blocked? && s.goroutines[i].ch in s.w.closed
    ensures var t := [Other(E.Open(s.pidFd, q)), Reap(i)];
            CanRun(s, t) && s.pidFd !in Exec(s, t).w.files && Exec(s, t).closes == 2
  {
    var open := Other(E.Open(s.pidFd, q));
    RunCons(Apply(s, open), Reap(i), []);
    RunCons(s, open, [Reap(i)]);
  }

  /** The stray goroutine closes the pidfd of the running process: IsRunning answers false,
      and the channel that was to report the exit is never closed. */
  lemma LosesTheWatch(s: State, i: nat, t: seq<Step>)
    requires Poised(s, i) && CanRun(Apply(s, Reap(i)), t)
    ensures var u := Apply(s, Reap(i));
            && u.pidFd == -1 && !WatchKept(u) && s.pidFd !in u.w.files
            && s.quit.value !in Exec(u, t).w.closed
  {
    var u := Apply(s, Reap(i));
    InvStep(s, Reap(i));
    assert E.Deaf(u.w, s.pidFd);
    var te := Project(u, t);
    E.DeafForever(u.w, s.pidFd, te);
    DeafChannel(u.w, s.pidFd, te);
  }

  lemma {:induction false} DeafChannel(w: E.State, f: E.Fd, t: seq<E.Step>)
    requires E.Safe(w) && E.Deaf(w, f) && E.CanRun(w, t)
    ensures f in E.Exec(w, t).fdmap && E.Exec(w, t).fdmap[f] == w.fdmap[f]
    decreases t
  {
    E.StuckForever(w, f, t, true);
  }

  // ---------- the exact condition ----------

  /** Whatever happens to this generation, Close closes its pidfd once if Remove returned nil. */
  ghost predicate AlwaysClosedOnce(s: State, f: E.Fd, p: E.Proc) {
    forall t: seq<Step> :: CanRun(s, [Launch(f, p)] + t) && NoLaunch(t) ==> ClosedOnce(Exec(s, [Launch(f, p)] + t))
  }

  /** Whatever happens to this generation, its process stays watched. */
  ghost predicate AlwaysWatchKept(s: State, f: E.Fd, p: E.Proc) {
    forall t: seq<Step> :: CanRun(s, [Launch(f, p)] + t) && NoLaunch(t) ==> WatchKept(Exec(s, [Launch(f, p)] + t))
  }

  lemma {:induction false} NoLaunchIsQuiet(s: State, t: seq<Step>)
    requires CanRun(s, t) && NoLaunch(t)
    ensures QuietLaunches(s, t)
    decreases t
  {
    if t != [] {
      assert t[0] in t && forall a :: a in t[1..] ==> a in t;
      NoLaunchIsQuiet(Apply(s, t[0]), t[1..]);
    }
  }

  lemma QuietGeneration(s: State, f: E.Fd, p: E.Proc, t: seq<Step>)
    requires Inv(s) && NoStray(s) && CanRun(s, [Launch(f, p)] + t) && NoLaunch(t)
    ensures ClosedOnce(Exec(s, [Launch(f, p)] + t)) && WatchKept(Exec(s, [Launch(f, p)] + t))
  {
    var all := [Launch(f, p)] + t;
    assert all[1..] == t && all[0] == Launch(f, p);
    var s1 := Apply(s, Launch(f, p));
    InvStep(s, Launch(f, p));
    QuietLaunch(s, f, p);
    NoLaunchIsQuiet(s1, t);
    QuietRun(s1, t);
  }

  /** A launch that gets a number the waiter has an entry for is never watched. */
  ghost predicate Refused(s: State, f: E.Fd) {
    E.Stuck(s.w, f) && !s.watched && (s.pidFd == f || (s.pidFd == -1 && !s.opening))
    && s.closer != Removing(true) && s.closer != Finished(true)
  }

  lemma {:induction false} RefusedRun(s: State, f: E.Fd, t: seq<Step>)
    requires Refused(s, f) && CanRun(s, t) && NoLaunch(t)
    ensures Refused(Exec(s, t), f)
    decreases t
  {
    if t != [] {
      assert t[0] in t && forall a :: a in t[1..] ==> a in t;
      RefusedStep(s, f, t[0]);
      RefusedRun(Apply(s, t[0]), f, t[1..]);
    }
  }

  lemma RefusedStep(s: State, f: E.Fd, a: Step)
    requires Refused(s, f) && Enabled(s, a) && !a.Launch?
    ensures Refused(Apply(s, a), f)
  {
    WaiterStepIs(s, a);
    E.StuckForever(s.w, f, WaiterStep(s, a), true);
  }

  /** The exact condition for a launch: the two promises hold in every continuation iff no
      goroutine of an earlier launch can still run, or the number is refused by the waiter
      so that there is no watch at all. */
  lemma LaunchIsSafeExactly(s: State, f: E.Fd, p: E.Proc)
    requires Inv(s) && E.Tracked(s.w) && E.Alive(s.w) && Enabled(s, Launch(f, p))
    ensures AlwaysClosedOnce(s, f, p) <==> NoStray(s) || f in s.w.fdmap
    ensures AlwaysWatchKept(s, f, p) <==> NoStray(s) || f in s.w.fdmap
  {
    if NoStray(s) {
      forall t: seq<Step> | CanRun(s, [Launch(f, p)] + t) && NoLaunch(t)
        ensures ClosedOnce(Exec(s, [Launch(f, p)] + t)) && WatchKept(Exec(s, [Launch(f, p)] + t))
      {
        QuietGeneration(s, f, p, t);
      }
    } else if f in s.w.fdmap {
      forall t: seq<Step> | CanRun(s, [Launch(f, p)] + t) && NoLaunch(t)
        ensures ClosedOnce(Exec(s, [Launch(f, p)] + t)) && WatchKept(Exec(s, [Launch(f, p)] + t))
      {
        RefusedGeneration(s, f, p, t);
      }
    } else {
      StrayBreaksBoth(s, f, p);
    }
  }

  lemma RefusedGeneration(s: State, f: E.Fd, p: E.Proc, t: seq<Step>)
    requires Inv(s) && f in s.w.fdmap && CanRun(s, [Launch(f, p)] + t) && NoLaunch(t)
    ensures ClosedOnce(Exec(s, [Launch(f, p)] + t)) && WatchKept(Exec(s, [Launch(f, p)] + t))
  {
    var all := [Launch(f, p)] + t;
    assert all[1..] == t && all[0] == Launch(f, p);
    assert f in s.w.interest ==> E.Registered(s.w, f);
    RefusedRun(Apply(s, Launch(f, p)), f, t);
  }

  lemma SomeStray(s: State) returns (i: nat)
    requires Inv(s) && !NoStray(s)
    ensures Stray(s, i)
  {
    i :| 0 <= i < |s.goroutines| && Target(s, i).Some? && !Unreachable(s.w, Target(s, i).value);
    assert Made(s, i);
  }

  lemma StrayBreaksBoth(s: State, f: E.Fd, p: E.Proc)
    requires Inv(s) && E.Tracked(s.w) && E.Alive(s.w) && Enabled(s, Launch(f, p))
    requires !NoStray(s) && f !in s.w.fdmap
    ensures !AlwaysClosedOnce(s, f, p) && !AlwaysWatchKept(s, f, p)
  {
    var i := SomeStray(s);
    var t := StrayGetsReady(s, i, f, p);
    var u := Exec(s, [Launch(f, p)] + t);
    PoisedClose(u, i);
    Extend(s, f, p, t, [CloseBegin(true), CloseEnd, Reap(i)]);
    PoisedReap(u, i);
    Extend(s, f, p, t, [Reap(i)]);
  }

  lemma PoisedClose(s: State, i: nat)
    requires Poised(s, i)
    ensures var t := [CloseBegin(true), CloseEnd, Reap(i)];
            CanRun(s, t) && NoLaunch(t) && !ClosedOnce(Exec(s, t))
  {
    LateClose(s, i);
  }

  lemma PoisedReap(s: State, i: nat)
    requires Poised(s, i)
    ensures CanRun(s, [Reap(i)]) && NoLaunch([Reap(i)]) && !WatchKept(Exec(s, [Reap(i)]))
  {
    RunCons(s, Reap(i), []);
  }

  lemma Extend(s: State, f: E.Fd, p: E.Proc, t: seq<Step>, more: seq<Step>)
    requires CanRun(s, [Launch(f, p)] + t) && NoLaunch(t) && NoLaunch(more)
    requires CanRun(Exec(s, [Launch(f, p)] + t), more)
    ensures CanRun(s, [Launch(f, p)] + (t + more)) && NoLaunch(t + more)
    ensures Exec(s, [Launch(f, p)] + (t + more)) == Exec(Exec(s, [Launch(f, p)] + t), more)
  {
    RunConcat(s, [Launch(f, p)] + t, more);
    assert [Launch(f, p)] + (t + more) == [Launch(f, p)] + t + more;
  }

  /** Such a goroutine is reachable: the process exits and is reported, and Start is called
      with another number before the goroutine has taken the strategy's mutex. */
  lemma RestartRace(f: E.Fd, p: E.Proc, g: E.Fd, q: E.Proc) returns (t: seq<Step>)
    requires f >= 0 && g >= 0 && f != g
    ensures CanRun(Init(), t)
    ensures var s := Exec(Init(), t);
            Enabled(s, Launch(g, q)) && !AlwaysClosedOnce(s, g, q) && !AlwaysWatchKept(s, g, q)
  {
    t := FirstExit(f, p);
    NotNoStray(Exec(Init(), t), 0);
    StrayBreaksBoth(Exec(Init(), t), g, q);
  }

  lemma NotNoStray(s: State, i: nat)
    requires Stray(s, i)
    ensures !NoStray(s)
  {
    assert Reachable(s.w, Target(s, i).value);
  }

  /** A start, and the exit of its process, reported but not yet seen by the goroutine. */
  lemma FirstExit(f: E.Fd, p: E.Proc) returns (t: seq<Step>)
    requires f >= 0
    ensures CanRun(Init(), t)
    ensures var s := Exec(Init(), t);
            && Inv(s) && E.Tracked(s.w) && E.Alive(s.w) && LockFree(s) && Stray(s, 0)
            && s.w.files.Keys == {f} && s.w.fdmap.Keys == {f}
  {
    FirstStartRuns(f, p);
    var s := Exec(Init(), FirstStart(f, p));
    t := MakeReady(s, 0);
    InvRun(s, t);
    RunConcat(Init(), FirstStart(f, p), t);
    t := FirstStart(f, p) + t;
  }

  function FirstStart(f: E.Fd, p: E.Proc): seq<Step> { [Launch(f, p), Watch(true)] }

  lemma FirstStartRuns(f: E.Fd, p: E.Proc)
    requires f >= 0
    ensures CanRun(Init(), FirstStart(f, p))
    ensures var s := Exec(Init(), FirstStart(f, p));
            && Inv(s) && E.Tracked(s.w) && E.Alive(s.w) && LockFree(s) && s.closer == Idle
            && s.w.files.Keys == {f} && s.w.fdmap.Keys == {f}
            && s.goroutines == [Spawned] && s.quit == Some(0) && s.w.fdmap[f] == 0
  {
    var s1 := Apply(Init(), Launch(f, p));
    RunCons(s1, Watch(true), []);
    RunCons(Init(), Launch(f, p), [Watch(true)]);
    InvRun(Init(), FirstStart(f, p));
    FirstStartTracked(f, p);
  }

  lemma FirstStartTracked(f: E.Fd, p: E.Proc)
    ensures var w := E.Apply(E.Init(), E.Open(f, p)); E.Tracked(E.Apply(w, E.Add(f, true)))
  {
    var w := E.Apply(E.Init(), E.Open(f, p));
    E.TrackedStep(E.Init(), E.Open(f, p));
    E.SafeStep(E.Init(), E.Open(f, p));
    E.TrackedStep(w, E.Add(f, true));
  }

  // ---------- one Close, in any state ----------

  /** A goroutine that can still run after Remove took the entry of the pidfd away. */
  ghost predicate Survives(s: State, i: nat) {
    && i < |s.goroutines| && Target(s, i).Some?
    && (Target(s, i).value in s.w.closed
        || exists f :: f in s.w.fdmap && f != s.pidFd && s.w.fdmap[f] == Target(s, i).value)
  }

  ghost predicate CanCloseTwice(s: State) {
    exists t: seq<Step> :: CanRun(s, t) && NoLaunch(t) && Exec(s, t).closes == 2
  }

  /** Close, called while its Remove meets no resource failure, is followed by a second
      close of the number in some continuation iff a goroutine can still run by then. */
  lemma DoubleCloseExactly(s: State)
    requires Inv(s) && E.Tracked(s.w) && E.Alive(s.w) && LockFree(s) && E.MutexFree(s.w)
    requires s.closer == Idle && s.pidFd != -1
    ensures CanCloseTwice(Apply(s, CloseBegin(true))) <==> exists i :: Survives(s, i)
  {
    var s1 := Apply(s, CloseBegin(true));
    InvStep(s, CloseBegin(true));
    if i :| Survives(s, i) {
      SurvivorCloses(s, i);
    } else {
      NobodySurvives(s);
      forall t: seq<Step> | CanRun(s1, t) && NoLaunch(t) ensures Exec(s1, t).closes < 2 {
        AllDeadRun(s1, t);
      }
    }
  }

  lemma SurvivorCloses(s: State, i: nat)
    requires Inv(s) && E.Tracked(s.w) && E.Alive(s.w) && LockFree(s) && E.MutexFree(s.w)
    requires s.closer == Idle && s.pidFd != -1 && Survives(s, i)
    ensures CanCloseTwice(Apply(s, CloseBegin(true)))
  {
    var s1 := Apply(s, CloseBegin(true));
    CloseKeeps(s);
    var s2 := Apply(s1, CloseEnd);
    assert Stray(s2, i);
    var t := RunStray(s2, i);
    RunCons(s1, CloseEnd, t);
    var all := [CloseEnd] + t;
    assert CanRun(s1, all) && NoLaunch(all) && Exec(s1, all).closes == 2;
  }

  /** After both parts of Close the waiter still tracks everything that is watched. */
  lemma CloseKeeps(s: State)
    requires Inv(s) && E.Tracked(s.w) && E.Alive(s.w) && LockFree(s) && E.MutexFree(s.w)
    requires s.closer == Idle && s.pidFd != -1
    ensures Apply(s, CloseBegin(true)).closer.Removing?
    ensures var u := Apply(Apply(s, CloseBegin(true)), CloseEnd);
            && Inv(u) && E.Tracked(u.w) && E.Alive(u.w) && LockFree(u) && u.pidFd == s.pidFd && u.closes == 1
            && u.goroutines == s.goroutines && u.quit == s.quit && u.w.closed == s.w.closed
            && forall f :: f in s.w.fdmap && f != s.pidFd ==> f in u.w.fdmap && u.w.fdmap[f] == s.w.fdmap[f]
  {
    var s1 := Apply(s, CloseBegin(true));
    InvStep(s, CloseBegin(true));
    RemoveKeeps(s.w, s.pidFd);
    TrackedSysClose(s1.w, s.pidFd);
    InvStep(s1, CloseEnd);
  }

  lemma RemoveKeeps(w: E.State, f: E.Fd)
    requires E.Safe(w) && E.Tracked(w) && E.Alive(w) && E.MutexFree(w)
    ensures var v := E.Apply(w, E.Remove(f, true));
            && E.Safe(v) && E.Tracked(v) && E.Alive(v) && !E.Watched(v, f) && v.closed == w.closed
            && forall g :: g in w.fdmap && g != f ==> g in v.fdmap && v.fdmap[g] == w.fdmap[g]
  {
    E.SafeStep(w, E.Remove(f, true));
    E.TrackedStep(w, E.Remove(f, true));
    assert E.Watched(w, f) ==> E.Covered(w, f);
  }

  lemma RunStray(s: State, i: nat) returns (t: seq<Step>)
    requires Inv(s) && E.Tracked(s.w) && E.Alive(s.w) && LockFree(s) && s.pidFd != -1 && Stray(s, i)
    ensures CanRun(s, t) && NoLaunch(t) && Exec(s, t).closes == s.closes + 1
  {
    t := MakeReady(s, i);
    var u := Exec(s, t);
    RunCons(u, Reap(i), []);
    RunConcat(s, t, [Reap(i)]);
    t := t + [Reap(i)];
  }

  /** Close has begun and no goroutine can run. */
  ghost predicate AllDead(s: State) {
    && s.pidFd != -1 && !s.opening && (s.closer.Removing? || s.closer.Finished?)
    && forall i :: 0 <= i < |s.goroutines| && Target(s, i).Some? ==> Unreachable(s.w, Target(s, i).value)
  }

  lemma NobodySurvives(s: State)
    requires Inv(s) && E.Tracked(s.w) && LockFree(s) && E.MutexFree(s.w) && s.closer == Idle && s.pidFd != -1
    requires !exists i :: Survives(s, i)
    ensures AllDead(Apply(s, CloseBegin(true)))
  {
    var s1 := Apply(s, CloseBegin(true));
    assert E.Watched(s.w, s.pidFd) ==> E.Covered(s.w, s.pidFd);
    forall i | 0 <= i < |s1.goroutines| && Target(s1, i).Some? ensures Unreachable(s1.w, Target(s1, i).value) {
      assert Made(s, i) && !Survives(s, i);
    }
  }

  lemma {:induction false} AllDeadRun(s: State, t: seq<Step>)
    requires Inv(s) && AllDead(s) && CanRun(s, t) && NoLaunch(t)
    ensures Exec(s, t).closes < 2
    decreases t
  {
    if t != [] {
      assert t[0] in t && forall a :: a in t[1..] ==> a in t;
      InvStep(s, t[0]);
      AllDeadStep(s, t[0]);
      AllDeadRun(Apply(s, t[0]), t[1..]);
    }
  }

  lemma AllDeadStep(s: State, a: Step)
    requires Inv(s) && AllDead(s) && Enabled(s, a) && !a.Launch?
    ensures AllDead(Apply(s, a))
  {
    var t := Apply(s, a);
    WaiterStepIs(s, a);
    NoReap(s, a);
    forall i | 0 <= i < |t.goroutines| && Target(t, i).Some? ensures Unreachable(t.w, Target(t, i).value) {
      UnreachableRun(s.w, WaiterStep(s, a), Target(s, i).value);
    }
  }

  lemma NoReap(s: State, a: Step)
    requires AllDead(s) && Enabled(s, a)
    ensures !a.Reap?
  {
    if a.Reap? && Target(s, a.i).Some? && Unreachable(s.w, Target(s, a.i).value) {
      assert false;
    }
  }

  /** When the launch was quiet, a goroutine survives exactly when the exit has been
      processed already: Close was called inside that window. */
  lemma SurvivesInTheWindow(s: State)
    requires Inv(s) && Quiet(s) && s.watched && s.closer == Idle && s.pidFd != -1
    ensures (exists i :: Survives(s, i)) <==> s.quit.value in s.w.closed
  {
    if i :| Survives(s, i) {
      assert Harmless(s, i);
    }
    if s.quit.value in s.w.closed {
      assert Survives(s, |s.goroutines| - 1);
    }
  }

  // ---------- numbers that leak, numbers that are spent ----------

  lemma {:induction false} HeldStays(s: State, f: E.Fd, t: seq<Step>)
    requires Inv(s) && f in s.held && f != s.pidFd && CanRun(s, t)
    ensures var u := Exec(s, t); f in u.held && f in u.w.files && f != u.pidFd
    decreases t
  {
    if t != [] {
      InvStep(s, t[0]);
      HeldStays(Apply(s, t[0]), f, t[1..]);
    }
  }

  /** A start while the old pidfd is still open replaces it, and then it stays open for ever:
      only pidFd is closed. */
  lemma ReplacedPidfdLeaks(s: State, f: E.Fd, p: E.Proc, t: seq<Step>)
    requires Inv(s) && s.pidFd != -1 && s.closes == 0 && CanRun(s, [Launch(f, p)] + t)
    ensures var u := Exec(s, [Launch(f, p)] + t);
            s.pidFd in u.held && s.pidFd in u.w.files && s.pidFd != u.pidFd
  {
    assert ([Launch(f, p)] + t)[1..] == t;
    InvStep(s, Launch(f, p));
    HeldStays(Apply(s, Launch(f, p)), s.pidFd, t);
  }

  /** In every later state a start that gets a spent number fails to be watched, whatever
      epoll_ctl says: it returns an error with the process running, pidFd assigned
      (so that IsRunning answers true) and no goroutine to close it. */
  lemma SpentNumberIsNeverWatched(s: State, f: E.Fd, t: seq<Step>, p: E.Proc, sysOk: bool)
    requires Inv(s) && E.Spent(s.w, f) && CanRun(s, t)
    requires Enabled(Exec(s, t), Launch(f, p)) && E.MutexFree(Exec(s, t).w)
    ensures var u := Exec(s, t); var start := [Launch(f, p), Watch(sysOk)];
            && CanRun(u, start)
            && Exec(u, start).pidFd == f && !Exec(u, start).watched && !Exec(u, start).opening
            && Exec(u, start).goroutines == u.goroutines && Exec(u, start).quit == u.quit
  {
    var u := Exec(s, t);
    var te := Project(s, t);
    E.SpentForever(s.w, f, te, sysOk);
    var u1 := Apply(u, Launch(f, p));
    RunCons(u1, Watch(sysOk), []);
    RunCons(u, Launch(f, p), [Watch(sysOk)]);
  }
}

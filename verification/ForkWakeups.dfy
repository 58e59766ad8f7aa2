/** What a restart of a strategy of execution/fork.go means for the other clients of the
    waiter it shares with them. */
module ForkWakeups {
  import opened Text
  import opened ForkOwnership
  import opened ForkRestart
  import E = Epoll

  /** Whatever happens to this generation, as long as everybody keeps the closing rule, every
      client of the waiter is told of the exits it waits for. */
  ghost predicate AlwaysHeard(s: State, f: E.Fd, p: E.Proc) {
    forall t: seq<Step>, g: E.Fd ::
      CanRun(s, [Launch(f, p)] + t) && NoLaunch(t) && OrderlyRun(s, [Launch(f, p)] + t)
      ==> Heard(Exec(s, [Launch(f, p)] + t).w, g)
  }

  lemma {:induction false} TameIsOrderly(s: State, t: seq<Step>)
    requires CanRun(s, t) && Tame(t)
    ensures OrderlyRun(s, t)
    decreases t
  {
    if t != [] {
      assert t[0] in t && forall a :: a in t[1..] ==> a in t;
      TameIsOrderly(Apply(s, t[0]), t[1..]);
    }
  }

  // ---------- with a stray goroutine ----------

  /** Close, then somebody else opens the number and watches it, and then the goroutine. */
  function StealsAWatch(f: E.Fd, i: nat, q: E.Proc): seq<Step> {
    [CloseBegin(true), CloseEnd, Other(E.Open(f, q)), Other(E.Add(f, true)), Reap(i)]
  }

  /** The goroutine closes the descriptor of another client, whose channel is then never
      closed. */
  lemma StrayHurtsOthers(s: State, i: nat, q: E.Proc)
    requires Poised(s, i)
    ensures CanRun(s, StealsAWatch(s.pidFd, i, q))
    ensures var w := Exec(s, StealsAWatch(s.pidFd, i, q)).w;
            E.Deaf(w, s.pidFd) && s.pidFd !in w.files && !Heard(w, s.pidFd)
  {
    var f := s.pidFd;
    var s2 := Closed(s, i);
    var rest := Rewatched(s2, i, q);
    RunConcat(s, [CloseBegin(true), CloseEnd], rest);
    assert StealsAWatch(f, i, q) == [CloseBegin(true), CloseEnd] + rest;
  }

  lemma Closed(s: State, i: nat) returns (u: State)
    requires Poised(s, i)
    ensures CanRun(s, [CloseBegin(true), CloseEnd]) && u == Exec(s, [CloseBegin(true), CloseEnd])
    ensures Inv(u) && LockFree(u) && u.w.run == E.Waiting && u.pidFd == s.pidFd && u.pidFd !in u.held
    ensures u.pidFd !in u.w.files && u.pidFd !in u.w.fdmap && u.pidFd != -1 && u.goroutines == s.goroutines
    ensures s.goroutines[i].ch in u.w.closed
  {
    var s1 := Apply(s, CloseBegin(true));
    InvStep(s, CloseBegin(true));
    assert s1.w.closed == s.w.closed;
    u := Apply(s1, CloseEnd);
    InvStep(s1, CloseEnd);
    assert u.w.closed == s1.w.closed;
    RunCons(s1, CloseEnd, []);
    RunCons(s, CloseBegin(true), [CloseEnd]);
  }

  lemma Rewatched(s: State, i: nat, q: E.Proc) returns (t: seq<Step>)
    requires Inv(s) && LockFree(s) && s.w.run == E.Waiting && s.pidFd != -1 && s.pidFd !in s.held
    requires s.pidFd !in s.w.files && s.pidFd !in s.w.fdmap
    requires i < |s.goroutines| && s.goroutines[i].Blocked? && s.goroutines[i].ch in s.w.closed
    ensures t == [Other(E.Open(s.pidFd, q)), Other(E.Add(s.pidFd, true)), Reap(i)]
    ensures CanRun(s, t)
    ensures var w := Exec(s, t).w; E.Deaf(w, s.pidFd) && s.pidFd !in w.files && !Heard(w, s.pidFd)
  {
    var f := s.pidFd;
    var s1 := Apply(s, Other(E.Open(f, q)));
    assert f in s.w.interest ==> E.Registered(s.w, f);
    var s2 := Apply(s1, Other(E.Add(f, true)));
    assert s.w.nextChan !in s.w.closed;
    RunCons(s2, Reap(i), []);
    RunCons(s1, Other(E.Add(f, true)), [Reap(i)]);
    t := [Other(E.Open(f, q)), Other(E.Add(f, true)), Reap(i)];
    RunCons(s, Other(E.Open(f, q)), [Other(E.Add(f, true)), Reap(i)]);
  }

  lemma ExtendTame(s: State, f: E.Fd, p: E.Proc, t: seq<Step>, more: seq<Step>)
    requires CanRun(s, [Launch(f, p)] + t) && NoLaunch(t) && NoLaunch(more) && Tame(t) && Tame(more)
    requires CanRun(Exec(s, [Launch(f, p)] + t), more)
    ensures CanRun(s, [Launch(f, p)] + (t + more)) && NoLaunch(t + more)
    ensures Exec(s, [Launch(f, p)] + (t + more)) == Exec(Exec(s, [Launch(f, p)] + t), more)
    ensures OrderlyRun(s, [Launch(f, p)] + (t + more))
  {
    Extend(s, f, p, t, more);
    TameIsOrderly(s, [Launch(f, p)] + (t + more));
  }

  lemma StrayBreaksHearing(s: State, f: E.Fd, p: E.Proc)
    requires Inv(s) && E.Tracked(s.w) && E.Alive(s.w) && Enabled(s, Launch(f, p))
    requires !NoStray(s) && f !in s.w.fdmap
    ensures !AlwaysHeard(s, f, p)
  {
    var i := SomeStray(s);
    var t := StrayGetsReady(s, i, f, p);
    var u := Exec(s, [Launch(f, p)] + t);
    StrayHurtsOthers(u, i, p);
    ExtendTame(s, f, p, t, StealsAWatch(u.pidFd, i, p));
    assert !Heard(Exec(s, [Launch(f, p)] + (t + StealsAWatch(u.pidFd, i, p))).w, u.pidFd);
  }

  // ---------- without, or without a watch ----------

  lemma QuietIsHeard(s: State, f: E.Fd, p: E.Proc, t: seq<Step>)
    requires Inv(s) && E.Tracked(s.w) && NoStray(s)
    requires CanRun(s, [Launch(f, p)] + t) && NoLaunch(t) && OrderlyRun(s, [Launch(f, p)] + t)
    ensures E.Tracked(Exec(s, [Launch(f, p)] + t).w)
  {
    assert ([Launch(f, p)] + t)[1..] == t;
    var s1 := Apply(s, Launch(f, p));
    InvStep(s, Launch(f, p));
    QuietLaunch(s, f, p);
    E.TrackedStep(s.w, E.Open(f, p));
    NoLaunchIsQuiet(s1, t);
    WakeRun(s1, t);
  }

  /** A start that gets a spent number closes no other. */
  ghost predicate RefusedSpent(s: State, f: E.Fd) { Refused(s, f) && E.Spent(s.w, f) && E.Safe(s.w) && E.Tracked(s.w) }

  lemma RefusedSpentStep(s: State, f: E.Fd, a: Step)
    requires RefusedSpent(s, f) && Inv(s) && Enabled(s, a) && !a.Launch? && Orderly(s, a)
    ensures RefusedSpent(Apply(s, a), f)
  {
    RefusedStep(s, f, a);
    InvStep(s, a);
    match a
    case Watch(sysOk) =>
    case Read(i) =>
    case CloseBegin(sysOk) =>
    case CloseEnd => TrackedSysClose(s.w, s.pidFd);
    case Reap(i) =>
      if s.pidFd != -1 {
        TrackedSysClose(s.w, s.pidFd);
      }
    case Other(e) =>
      E.TrackedStep(s.w, e);
      assert f in s.w.interest ==> E.Registered(s.w, f);
      E.SpentStep(s.w, f, e);
  }

  lemma {:induction false} RefusedSpentRun(s: State, f: E.Fd, t: seq<Step>)
    requires RefusedSpent(s, f) && Inv(s) && CanRun(s, t) && NoLaunch(t) && OrderlyRun(s, t)
    ensures E.Tracked(Exec(s, t).w)
    decreases t
  {
    if t != [] {
      assert t[0] in t && forall a :: a in t[1..] ==> a in t;
      RefusedSpentStep(s, f, t[0]);
      InvStep(s, t[0]);
      RefusedSpentRun(Apply(s, t[0]), f, t[1..]);
    }
  }

  lemma NotOpenIsSpent(w: E.State, f: E.Fd)
    requires E.Tracked(w) && !w.run.Broken? && f in w.fdmap && f !in w.files
    ensures E.Spent(w, f)
  {
    if E.Watched(w, f) {
      assert false;
    }
  }

  lemma RefusedIsHeard(s: State, f: E.Fd, p: E.Proc, t: seq<Step>)
    requires Inv(s) && E.Tracked(s.w) && E.Alive(s.w) && f in s.w.fdmap
    requires CanRun(s, [Launch(f, p)] + t) && NoLaunch(t) && OrderlyRun(s, [Launch(f, p)] + t)
    ensures E.Tracked(Exec(s, [Launch(f, p)] + t).w)
  {
    assert ([Launch(f, p)] + t)[1..] == t;
    NotOpenIsSpent(s.w, f);
    assert f in s.w.interest ==> E.Registered(s.w, f);
    InvStep(s, Launch(f, p));
    E.TrackedStep(s.w, E.Open(f, p));
    RefusedSpentRun(Apply(s, Launch(f, p)), f, t);
  }

  /** The exact condition for the other clients too: they are told of every exit, in every
      orderly continuation, iff the launch finds no goroutine that can still run, or the
      waiter refuses the number. */
  lemma LaunchIsHeardExactly(s: State, f: E.Fd, p: E.Proc)
    requires Inv(s) && E.Tracked(s.w) && E.Alive(s.w) && Enabled(s, Launch(f, p))
    ensures AlwaysHeard(s, f, p) <==> NoStray(s) || f in s.w.fdmap
  {
    if NoStray(s) || f in s.w.fdmap {
      forall t: seq<Step>, g: E.Fd
        | CanRun(s, [Launch(f, p)] + t) && NoLaunch(t) && OrderlyRun(s, [Launch(f, p)] + t)
        ensures Heard(Exec(s, [Launch(f, p)] + t).w, g)
      {
        if NoStray(s) {
          QuietIsHeard(s, f, p, t);
        } else {
          RefusedIsHeard(s, f, p, t);
        }
        TrackedIsHeard(Exec(s, [Launch(f, p)] + t).w, g);
      }
    } else {
      StrayBreaksHearing(s, f, p);
    }
  }
}

/** The driver object of driver/driver.go as far as Stop is concerned: Start, Stop and the
    end of a watcher goroutine as methods, each a run of `StopProtocol`. What the other
    goroutines do while Stop waits is a parameter. */
module StopDriver {
  import opened Text
  import opened StopProtocol

  /** What happens until a waiter has returned: any run of the steps that are not Stop's
      own and do not need the mutex. */
  type Schedule = (State, Which) -> seq<Step>

  predicate Outside(a: Step) {
    match a
    case ProcExit(_) => true
    case EarlyClose(_) => true
    case SeeDone(_) => true
    case SeeCancelled(_) => true
    case Test(_) => true
    case Publish(_, _) => true
    case PublishExit(_) => true
    case Receive(_) => true
    case Timer(_) => true
    case _ => false
  }

  predicate Waiting(s: State) { !s.stopWaiter.Unsubscribed? && !s.exitWaiter.Unsubscribed? }

  predicate Fair(env: Schedule, s: State, w: Which) {
    && CanRun(s, env(s, w)) && (forall a :: a in env(s, w) ==> Outside(a))
    && Returned(Get(Exec(s, env(s, w)), w))
  }

  ghost predicate AlwaysFair(env: Schedule) {
    forall s: State, w: Which :: Waiting(s) ==> Fair(env, s, w)
  }

  /** There is such a schedule: the timer fires. */
  lemma SomeScheduleIsFair()
    ensures exists env: Schedule :: AlwaysFair(env)
  {
    var env: Schedule := (s: State, w: Which) => if Get(s, w).Listening? then [Timer(w)] else [];
    forall s: State, w: Which | Waiting(s) ensures Fair(env, s, w) {
      if Get(s, w).Listening? {
        RunCons(s, Timer(w), []);
      }
    }
    assert AlwaysFair(env);
  }

  /** Others neither move Stop nor touch what only Stop may touch. */
  lemma {:induction false} OutsideKeeps(s: State, t: seq<Step>)
    requires CanRun(s, t) && Waiting(s) && forall a :: a in t ==> Outside(a)
    ensures var r := Exec(s, t);
            && r.pc == s.pc && r.target == s.target && r.cur == s.cur
            && r.alreadyExited == s.alreadyExited && r.mon == s.mon && r.reports == s.reports && Waiting(r)
    ensures Returned(s.exitWaiter) ==> Exec(s, t).exitWaiter == s.exitWaiter
    ensures Returned(s.stopWaiter) ==> Exec(s, t).stopWaiter == s.stopWaiter
    decreases t
  {
    if t != [] {
      assert t[0] in t && forall a :: a in t[1..] ==> a in t;
      OutsideKeeps(Apply(s, t[0]), t[1..]);
    }
  }

  datatype Reply = Nil | NotConnected | BadState | KillFailed | DidNotExit

  class Driver {
    var mon: bool
    var cur: Proc
    const reports: Reports
    var exited: set<Proc>
    var closed: set<Proc>
    var watchers: seq<Watcher>
    var stopWaiter: Waiter
    var exitWaiter: Waiter
    // where Stop is, the process it is about, and its local `exited`
    var pc: Pc
    var target: Proc
    var alreadyExited: bool

    function View(): State
      reads this
    {
      State(reports, cur, exited, closed, watchers, mon, pc, target, stopWaiter, exitWaiter, alreadyExited)
    }

    /** A driver that found process `p` running, with a connected monitor. */
    constructor (p: Proc, reports: Reports)
      ensures View() == OneWatcher(p, reports)
    {
      this.reports := reports;
      cur, exited, closed, watchers, mon := p, {}, {}, [Watcher(p, false, Selecting)], true;
      stopWaiter, exitWaiter := Unsubscribed, Unsubscribed;
      pc, target, alreadyExited := NotCalled, p, false;
    }

    /** Start. `launched` is false when anything up to starting the process fails; after
        that a failure kills the process, which is then on its way out. */
    method Start(p: Proc, status: Status, launched: bool, connectOk: bool, plugsOk: bool, continueOk: bool)
      returns (ok: bool)
      requires status != Running && launched ==> CanStart(View(), p)
      modifies this`cur, this`watchers, this`mon
      ensures ok <==> status != Running && launched && connectOk && plugsOk && continueOk
      ensures status == Running || !launched ==> View() == old(View())
      ensures status != Running && launched ==> cur == p
      ensures status != Running && launched && connectOk ==>
                mon && watchers == old(watchers) + [Watcher(p, false, Selecting)]
      ensures !connectOk ==> mon == old(mon) && watchers == old(watchers)
      ensures status != Running && launched ==>
                View() == Apply(old(View()), if connectOk then Step.Start(p) else StartFails(p))
    {
      if status == Running || !launched {
        return false;
      }
      cur := p;
      if !connectOk {
        return false;
      }
      mon := true;
      watchers := watchers + [Watcher(p, false, Selecting)];
      return plugsOk && continueOk;
    }

    /** The watcher's goroutine after its loop: it looks at its context, and the exit is
        published before mu is taken. */
    method WatcherLeaves(i: nat)
      requires Enabled(View(), Test(i))
      modifies this`watchers, this`stopWaiter, this`exitWaiter
      ensures var t := if old(watchers[i].cancelled) then [Test(i)] else [Test(i), PublishExit(i)];
              CanRun(old(View()), t) && View() == Exec(old(View()), t)
      ensures old(watchers[i].cancelled) ==> stopWaiter == old(stopWaiter) && exitWaiter == old(exitWaiter)
      ensures !old(watchers[i].cancelled) ==>
                && (old(stopWaiter).Listening? ==>
                      stopWaiter == Listening(old(stopWaiter).queue + [ProcessExitEvent]))
                && (old(exitWaiter).Listening? ==>
                      exitWaiter == Listening(old(exitWaiter).queue + [ProcessExitEvent]))
    {
      ghost var s := View();
      if watchers[i].cancelled {
        watchers := watchers[i := watchers[i].(phase := NeedsMutex)];
        OneStep(s, Test(i));
        return;
      }
      watchers := watchers[i := watchers[i].(phase := Publishing)];
      PublishesExit(i);
      RunCons(s, Test(i), [PublishExit(i)]);
    }

    /** onQemuProcessExit, whatever has become of the context meanwhile. */
    method PublishesExit(i: nat)
      requires Enabled(View(), PublishExit(i))
      modifies this`watchers, this`stopWaiter, this`exitWaiter
      ensures CanRun(old(View()), [PublishExit(i)]) && View() == Exec(old(View()), [PublishExit(i)])
      ensures old(stopWaiter).Listening? ==> stopWaiter == Listening(old(stopWaiter).queue + [ProcessExitEvent])
      ensures old(exitWaiter).Listening? ==> exitWaiter == Listening(old(exitWaiter).queue + [ProcessExitEvent])
    {
      ghost var s := View();
      stopWaiter := Deliver(stopWaiter, ProcessExitEvent);
      exitWaiter := Deliver(exitWaiter, ProcessExitEvent);
      watchers := watchers[i := watchers[i].(phase := NeedsMutex)];
      OneStep(s, PublishExit(i));
    }

    /** The part of the watcher that holds mu. */
    method WatcherFinishes(i: nat)
      requires Enabled(View(), Finish(i))
      modifies this`watchers, this`mon
      ensures View() == Apply(old(View()), Finish(i))
      ensures !mon && watchers == old(watchers)[i := old(watchers[i]).(phase := Gone)]
    {
      mon := false;
      watchers := watchers[i := watchers[i].(phase := Gone)];
    }

    /** Receiving from stopEventCh or exitEventCh: everybody else goes on until waiter `w`
        has returned an event, or nil because its timer fired. */
    method Await(w: Which, env: Schedule) returns (event: Option<Event>, ghost t: seq<Step>)
      requires AlwaysFair(env) && Waiting(View())
      modifies this`exited, this`closed, this`watchers, this`stopWaiter, this`exitWaiter
      ensures CanRun(old(View()), t) && View() == Exec(old(View()), t) && Waiting(View())
      ensures Returned(Get(View(), w)) && (Returned(old(stopWaiter)) ==> stopWaiter == old(stopWaiter))
      ensures event == if Get(View(), w).Got? then Some(Get(View(), w).event) else None
    {
      t := env(View(), w);
      assert Fair(env, View(), w);
      OutsideKeeps(View(), t);
      var r := Exec(View(), env(View(), w));
      exited, closed, watchers := r.exited, r.closed, r.watchers;
      stopWaiter, exitWaiter := r.stopWaiter, r.exitWaiter;
      event := if Get(r, w).Got? then Some(Get(r, w).event) else None;
    }

    /** Stop up to the status: connect, subscribe both waiters, ask for the status. */
    method Prepare(connectOk: bool, status: Status) returns (ghost t: seq<Step>)
      requires pc == NotCalled && stopWaiter == Unsubscribed && exitWaiter == Unsubscribed
      requires status == Running ==> cur !in exited
      modifies this`pc, this`target, this`mon, this`stopWaiter, this`exitWaiter
      ensures t == PrepareSteps(connectOk, status) && mon == (old(mon) || connectOk)
      ensures !alreadyExited || old(alreadyExited)
      ensures CanRun(old(View()), t) && View() == Exec(old(View()), t)
      ensures if !connectOk then pc == Done(false, false)
              else Waiting(View()) && pc == if status == Running then Quitting else Done(status == Stopped, false)
    {
      t := PrepareSteps(connectOk, status);
      PrepareRuns(View(), connectOk, status);
      target := cur;
      if !connectOk {
        pc := Done(false, false);
        return;
      }
      mon, stopWaiter, exitWaiter := true, Listening([]), Listening([]);
      if status == Stopped {
        pc := Done(true, false);
      } else if status != Running {
        pc := Done(false, false);
      } else {
        pc := Quitting;
      }
    }

    /** Quit, and the wait for a stop or exit event. */
    method Trigger(quitOk: bool, env: Schedule) returns (kill: bool, ghost t: seq<Step>)
      requires pc == Quitting && Waiting(View()) && AlwaysFair(env)
      modifies this`pc, this`alreadyExited, this`exited, this`closed, this`watchers, this`stopWaiter, this`exitWaiter
      ensures CanRun(old(View()), t) && View() == Exec(old(View()), t) && Waiting(View())
      ensures pc == (if kill then Killing else Cleaning)
      ensures kill <==> !quitOk || stopWaiter == TimedOut
      ensures !kill ==> stopWaiter.Got? && (alreadyExited <==> stopWaiter == Got(ProcessExitEvent))
      ensures kill ==> alreadyExited == old(alreadyExited)
    {
      ghost var s := View();
      if !quitOk {
        pc := Killing;
        RunCons(s, Quit(false), []);
        return true, [Quit(false)];
      }
      pc := AwaitStop;
      assert View() == Apply(s, Quit(true));
      kill, t := ReceiveStop(env);
      RunCons(s, Quit(true), t);
      t := [Quit(true)] + t;
    }

    /** What is received from stopEventCh decides. */
    method ReceiveStop(env: Schedule) returns (kill: bool, ghost t: seq<Step>)
      requires pc == AwaitStop && Waiting(View()) && AlwaysFair(env)
      modifies this`pc, this`alreadyExited, this`exited, this`closed, this`watchers, this`stopWaiter, this`exitWaiter
      ensures CanRun(old(View()), t) && View() == Exec(old(View()), t) && Waiting(View())
      ensures pc == if kill then Killing else Cleaning
      ensures kill <==> stopWaiter == TimedOut
      ensures !kill ==> stopWaiter.Got? && (alreadyExited <==> stopWaiter == Got(ProcessExitEvent))
      ensures kill ==> alreadyExited == old(alreadyExited)
    {
      ghost var s := View();
      var stopEvent;
      stopEvent, t := Await(StopWaiter, env);
      OneStep(View(), TakeStop);
      RunConcat(s, t, [TakeStop]);
      t := t + [TakeStop];
      if stopEvent == None {
        pc := Killing;
        return true, t;
      }
      alreadyExited := stopEvent == Some(ProcessExitEvent);
      pc := Cleaning;
      return false, t;
    }

    /** Disconnecting, and the wait for the exit event. */
    method CleanUp(env: Schedule) returns (r: Reply, ghost t: seq<Step>)
      requires pc == Cleaning && Waiting(View()) && AlwaysFair(env)
      modifies this`pc, this`mon, this`exited, this`closed, this`watchers, this`stopWaiter, this`exitWaiter
      ensures CanRun(old(View()), t) && View() == Exec(old(View()), t)
      ensures r == Nil || r == DidNotExit
      ensures pc == Done(r == Nil, true)
      ensures r == Nil <==> alreadyExited || exitWaiter.Got?
      ensures !mon && alreadyExited == old(alreadyExited)
      ensures Returned(old(stopWaiter)) ==> stopWaiter == old(stopWaiter)
    {
      ghost var s := View();
      mon := false;
      OneStep(s, Clean);
      if alreadyExited {
        pc := Done(true, true);
        return Nil, [Clean];
      }
      pc := AwaitExit;
      ghost var s1 := View();
      assert s1 == Apply(s, Clean);
      var exitEvt;
      exitEvt, t := Await(ExitWaiter, env);
      ghost var s2 := View();
      OneStep(s2, TakeExit);
      r := if exitEvt == None then DidNotExit else Nil;
      pc := Done(r == Nil, true);
      RunConcat(s1, t, [TakeExit]);
      RunCons(s, Clean, t + [TakeExit]);
      t := [Clean] + (t + [TakeExit]);
    }

    /** Stop, from locking the mutex to unlocking it. */
    method Stop(connectOk: bool, status: Status, quitOk: bool, killOk: bool, env: Schedule)
      returns (r: Reply, ghost t: seq<Step>)
      requires Fresh(View()) && AlwaysFair(env)
      requires status == Running ==> cur !in exited
      modifies this
      ensures CanRun(old(View()), t) && View() == Exec(old(View()), t)
      ensures pc == Done(r == Nil, connectOk && status == Running)
      ensures r == NotConnected <==> !connectOk
      ensures connectOk && status != Running ==> r == if status == Stopped then Nil else BadState
      ensures connectOk && status == Running ==>
                && (r == KillFailed <==> !killOk && (!quitOk || stopWaiter == TimedOut))
                && (r == Nil <==> r != KillFailed
                                  && ((quitOk && stopWaiter == Got(ProcessExitEvent)) || exitWaiter.Got?))
                && (mon <==> r == KillFailed)
      ensures NoneMisleads(old(View())) && connectOk && status == Running && r == Nil ==> old(cur) in exited
    {
      ghost var s := View();
      t := Prepare(connectOk, status);
      if !connectOk {
        return NotConnected, t;
      }
      if status == Stopped {
        return Nil, t;
      } else if status != Running {
        return BadState, t;
      }
      ghost var t1;
      r, t1 := StopRunning(quitOk, killOk, env);
      RunConcat(s, t, t1);
      t := t + t1;
      NilIsSound(s, t);
    }

    /** Stop of a running VM. */
    method StopRunning(quitOk: bool, killOk: bool, env: Schedule) returns (r: Reply, ghost t: seq<Step>)
      requires pc == Quitting && Waiting(View()) && AlwaysFair(env) && !alreadyExited
      modifies this
      ensures CanRun(old(View()), t) && View() == Exec(old(View()), t)
      ensures pc == Done(r == Nil, true) && (r == Nil || r == KillFailed || r == DidNotExit)
      ensures r == KillFailed <==> !killOk && (!quitOk || stopWaiter == TimedOut)
      ensures r == Nil <==> r != KillFailed && ((quitOk && stopWaiter == Got(ProcessExitEvent)) || exitWaiter.Got?)
      ensures mon == if r == KillFailed then old(mon) else false
    {
      ghost var s := View();
      var kill;
      ghost var t1, t2;
      kill, t1 := Trigger(quitOk, env);
      r, t2 := KillAndCleanUp(kill, killOk, env);
      RunConcat(s, t1, t2);
      t := t1 + t2;
    }

    /** The kill, if Quit failed or its answer did not come in time, and the rest. */
    method KillAndCleanUp(kill: bool, killOk: bool, env: Schedule) returns (r: Reply, ghost t: seq<Step>)
      requires pc == (if kill then Killing else Cleaning) && Waiting(View()) && AlwaysFair(env)
      modifies this
      ensures CanRun(old(View()), t) && View() == Exec(old(View()), t)
      ensures pc == Done(r == Nil, true) && (r == KillFailed <==> kill && !killOk)
      ensures r == Nil <==> r != KillFailed && (alreadyExited || exitWaiter.Got?)
      ensures mon == (if r == KillFailed then old(mon) else false) && alreadyExited == old(alreadyExited)
      ensures Returned(old(stopWaiter)) ==> stopWaiter == old(stopWaiter)
      ensures r != NotConnected && r != BadState
    {
      if !kill {
        r, t := CleanUp(env);
        return;
      }
      ghost var s := View();
      OneStep(s, Kill(killOk));
      if !killOk {
        pc := Done(false, true);
        return KillFailed, [Kill(false)];
      }
      pc := Cleaning;
      r, t := CleanUp(env);
      RunCons(s, Kill(true), t);
      t := [Kill(true)] + t;
    }
  }

  function PrepareSteps(connectOk: bool, status: Status): seq<Step> {
    if connectOk then
      [StopLock, Connect(true), Subscribe(StopWaiter), Subscribe(ExitWaiter), Subscribed, Check(status)]
    else [StopLock, Connect(false)]
  }

  lemma OneStep(s: State, a: Step)
    requires Enabled(s, a)
    ensures CanRun(s, [a]) && Exec(s, [a]) == Apply(s, a)
  {
    RunCons(s, a, []);
  }

  lemma PrepareRuns(s: State, connectOk: bool, status: Status)
    requires s.pc == NotCalled && s.stopWaiter == Unsubscribed && s.exitWaiter == Unsubscribed
    requires status == Running ==> s.cur !in s.exited
    ensures CanRun(s, PrepareSteps(connectOk, status))
    ensures Exec(s, PrepareSteps(connectOk, status)) ==
            if !connectOk then s.(pc := Done(false, false), target := s.cur)
            else s.(pc := if status == Running then Quitting else Done(status == Stopped, false), target := s.cur,
                    mon := true, stopWaiter := Listening([]), exitWaiter := Listening([]))
  {
    var s1 := Apply(s, StopLock);
    if !connectOk {
      OneStep(s1, Connect(false));
      RunCons(s, StopLock, [Connect(false)]);
    } else {
      var s2 := Apply(s1, Connect(true));
      SubscribeRuns(s2, status);
      RunCons(s1, Connect(true), SubscribeSteps(status));
      RunCons(s, StopLock, [Connect(true)] + SubscribeSteps(status));
      assert PrepareSteps(true, status) == [StopLock] + ([Connect(true)] + SubscribeSteps(status));
    }
  }

  function SubscribeSteps(status: Status): seq<Step> {
    [Subscribe(StopWaiter), Subscribe(ExitWaiter), Subscribed, Check(status)]
  }

  lemma SubscribeRuns(s: State, status: Status)
    requires s.pc == Subscribing && s.stopWaiter == Unsubscribed && s.exitWaiter == Unsubscribed
    requires status == Running ==> s.cur !in s.exited
    ensures CanRun(s, SubscribeSteps(status))
    ensures Exec(s, SubscribeSteps(status)) ==
            s.(pc := if status == Running then Quitting else Done(status == Stopped, false),
               stopWaiter := Listening([]), exitWaiter := Listening([]))
  {
    var s1 := Apply(s, Subscribe(StopWaiter));
    var s2 := Apply(s1, Subscribe(ExitWaiter));
    var s3 := Apply(s2, Subscribed);
    OneStep(s3, Check(status));
    RunCons(s2, Subscribed, [Check(status)]);
    RunCons(s1, Subscribe(ExitWaiter), [Subscribed, Check(status)]);
    RunCons(s, Subscribe(StopWaiter), [Subscribe(ExitWaiter), Subscribed, Check(status)]);
  }

  /** What StopSoundExactly says about one run. */
  lemma NilIsSound(s: State, t: seq<Step>)
    requires Fresh(s) && s.cur !in s.exited && CanRun(s, t) && t != [] && t[0] == StopLock
    ensures NoneMisleads(s) && Exec(s, t).pc == Done(true, true) ==> s.cur in Exec(s, t).exited
  {
    if NoneMisleads(s) && Exec(s, t).pc == Done(true, true) {
      StopSoundExactly(s);
      var s1 := Apply(s, StopLock);
      assert CanRun(s1, t[1..]) && Exec(s1, t[1..]) == Exec(s, t);
      TargetStays(s1, t[1..]);
    }
  }

  lemma {:induction false} TargetStays(s: State, t: seq<Step>)
    requires s.pc != NotCalled && CanRun(s, t)
    ensures Exec(s, t).target == s.target
    decreases t
  {
    if t != [] {
      TargetStays(Apply(s, t[0]), t[1..]);
    }
  }
}

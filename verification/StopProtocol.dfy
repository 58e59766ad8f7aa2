/** Start, Stop and the watcher goroutines of driver/driver.go as a step system. Stop
    holds the driver's mutex from beginning to end while it waits for events that
    watchers publish; every watcher takes the mutex only after publishing. The fan-out
    delivers to each subscriber in order and without loss. */
module StopProtocol {
  import opened Text

  type Proc = nat

  datatype Event = StoppedEvent | ProcessExitEvent | OtherEvent

  /** One call of waitForEvent. */
  datatype Waiter =
    | Unsubscribed
    | Listening(queue: seq<Event>)
    | Got(event: Event)
    | TimedOut

  datatype WatcherPhase =
    | Selecting    // in the select loop
    | Exiting      // left the loop, about to look at ctx.Err()
    | Publishing   // the context was not cancelled then; about to publish ProcessExitEvent
    | NeedsMutex   // published (or cancelled); about to take mu
    | Gone

  datatype Watcher = Watcher(proc: Proc, cancelled: bool, phase: WatcherPhase)

  datatype Pc =
    | NotCalled
    | Connecting
    | Subscribing
    | Checking
    | Quitting
    | AwaitStop
    | Killing
    | Cleaning
    | AwaitExit
    | Done(ok: bool, fromRunning: bool)   // nil or an error; whether the status was Running

  /** What the execution strategy does with the exit channels: which processes' channels it
      may close while they run, and which processes' exits it never reports. */
  datatype Reports = Reports(early: set<Proc>, missed: set<Proc>)

  datatype State = State(
    reports: Reports,
    cur: Proc,               // the process started last
    exited: set<Proc>,
    closed: set<Proc>,       // whose exit channel was closed early
    watchers: seq<Watcher>,
    mon: bool,               // d.mon is not nil
    pc: Pc,
    target: Proc,            // history: cur when Stop took the mutex
    stopWaiter: Waiter,
    exitWaiter: Waiter,
    alreadyExited: bool)     // Stop's local `exited`

  datatype Status = Stopped | Running | OtherStatus

  datatype Which = StopWaiter | ExitWaiter

  datatype Step =
    | ProcExit(p: Proc)
    | EarlyClose(p: Proc)        // the strategy closes the exit channel of a running process
    | Start(p: Proc)
    | StartFails(p: Proc)        // the process runs, but its monitor cannot be reached
    | Cancel(i: nat)             // driver.Close
    | SeeDone(i: nat)
    | SeeCancelled(i: nat)
    | Test(i: nat)               // `if ctx.Err() == nil`
    | Publish(i: nat, e: Event)  // SHUTDOWN and RESET events of a live VM
    | PublishExit(i: nat)
    | Finish(i: nat)             // the part of the watcher that holds mu
    | StopLock
    | Connect(ok: bool)
    | Subscribe(w: Which)
    | Subscribed                 // wg.Wait returns
    | Check(st: Status)
    | Quit(ok: bool)
    | TakeStop
    | Kill(ok: bool)
    | Clean
    | TakeExit
    | Receive(w: Which)
    | Timer(w: Which)            // a Stopper fires

  predicate InStop(s: State) { s.pc != NotCalled && !s.pc.Done? }

  predicate MutexFree(s: State) { !InStop(s) }

  function Get(s: State, w: Which): Waiter {
    if w == StopWaiter then s.stopWaiter else s.exitWaiter
  }

  function Put(s: State, w: Which, x: Waiter): State {
    if w == StopWaiter then s.(stopWaiter := x) else s.(exitWaiter := x)
  }

  predicate Wants(w: Which, e: Event) {
    e == ProcessExitEvent || (w == StopWaiter && e == StoppedEvent)
  }

  predicate Returned(x: Waiter) { x.Got? || x.TimedOut? }

  /** Start rejects only status Running, which is the monitor's answer: the process started
      last may still run. A process is started once. */
  predicate CanStart(s: State, p: Proc) {
    && MutexFree(s) && p != s.cur && p !in s.exited && p !in s.closed
    && forall i :: 0 <= i < |s.watchers| ==> s.watchers[i].proc != p
  }

  /** The exit channel of process `p` is closed. */
  predicate Reported(s: State, p: Proc) { p in s.closed || (p in s.exited && p !in s.reports.missed) }

  predicate Enabled(s: State, a: Step) {
    match a
    case ProcExit(_) => true
    case EarlyClose(p) => p in s.reports.early
    case Start(p) => CanStart(s, p)
    case StartFails(p) => CanStart(s, p)
    case Cancel(i) => MutexFree(s) && i < |s.watchers|
    case SeeDone(i) => i < |s.watchers| && s.watchers[i].phase == Selecting && Reported(s, s.watchers[i].proc)
    case SeeCancelled(i) => i < |s.watchers| && s.watchers[i].phase == Selecting && s.watchers[i].cancelled
    case Test(i) => i < |s.watchers| && s.watchers[i].phase == Exiting
    case Publish(i, e) => i < |s.watchers| && s.watchers[i].phase == Selecting && e != ProcessExitEvent
    case PublishExit(i) => i < |s.watchers| && s.watchers[i].phase == Publishing
    case Finish(i) => MutexFree(s) && i < |s.watchers| && s.watchers[i].phase == NeedsMutex
    case StopLock => s.pc == NotCalled
    case Connect(_) => s.pc == Connecting
    case Subscribe(w) => s.pc == Subscribing && Get(s, w).Unsubscribed?
    case Subscribed => s.pc == Subscribing && !s.stopWaiter.Unsubscribed? && !s.exitWaiter.Unsubscribed?
    case Check(st) => s.pc == Checking && (st == Running ==> s.cur !in s.exited)
    case Quit(_) => s.pc == Quitting
    case TakeStop => s.pc == AwaitStop && Returned(s.stopWaiter)
    case Kill(_) => s.pc == Killing
    case Clean => s.pc == Cleaning
    case TakeExit => s.pc == AwaitExit && Returned(s.exitWaiter)
    case Receive(w) => Get(s, w).Listening? && Get(s, w).queue != []
    case Timer(w) => Get(s, w).Listening?
  }

  function Deliver(x: Waiter, e: Event): Waiter {
    if x.Listening? then Listening(x.queue + [e]) else x
  }

  function PublishEvent(s: State, e: Event): State {
    s.(stopWaiter := Deliver(s.stopWaiter, e), exitWaiter := Deliver(s.exitWaiter, e))
  }

  function SetPhase(s: State, i: nat, phase: WatcherPhase): State
    requires i < |s.watchers|
  {
    s.(watchers := s.watchers[i := s.watchers[i].(phase := phase)])
  }

  function Apply(s: State, a: Step): State
    requires Enabled(s, a)
  {
    match a
    case ProcExit(p) => s.(exited := s.exited + {p})
    case EarlyClose(p) => s.(closed := s.closed + {p})
    case Start(p) => s.(cur := p, watchers := s.watchers + [Watcher(p, false, Selecting)], mon := true)
    case StartFails(p) => s.(cur := p)
    case Cancel(i) => s.(watchers := s.watchers[i := s.watchers[i].(cancelled := true)])
    case SeeDone(i) => SetPhase(s, i, Exiting)
    case SeeCancelled(i) => SetPhase(s, i, Exiting)
    case Publish(i, e) => PublishEvent(s, e)
    case Test(i) => SetPhase(s, i, if s.watchers[i].cancelled then NeedsMutex else Publishing)
    case PublishExit(i) => PublishEvent(SetPhase(s, i, NeedsMutex), ProcessExitEvent)
    case Finish(i) => SetPhase(s, i, Gone).(mon := false)
    case StopLock => s.(pc := Connecting, target := s.cur)
    case Connect(ok) => if ok then s.(pc := Subscribing, mon := true) else s.(pc := Done(false, false))
    case Subscribe(w) => Put(s, w, Listening([]))
    case Subscribed => s.(pc := Checking)
    case Check(st) =>
      s.(pc := if st == Running then Quitting else Done(st == Stopped, false))
    case Quit(ok) => s.(pc := if ok then AwaitStop else Killing)
    case TakeStop =>
      if s.stopWaiter.TimedOut? then s.(pc := Killing)
      else s.(pc := Cleaning, alreadyExited := s.stopWaiter.event == ProcessExitEvent)
    case Kill(ok) => s.(pc := if ok then Cleaning else Done(false, true))
    case Clean => s.(mon := false, pc := if s.alreadyExited then Done(true, true) else AwaitExit)
    case TakeExit => s.(pc := Done(s.exitWaiter.Got?, true))
    case Receive(w) =>
      var q := Get(s, w).queue;
      Put(s, w, if Wants(w, q[0]) then Got(q[0]) else Listening(q[1..]))
    case Timer(w) => Put(s, w, TimedOut)
  }

  predicate CanRun(s: State, t: seq<Step>)
    decreases t
  {
    t == [] || (Enabled(s, t[0]) && CanRun(Apply(s, t[0]), t[1..]))
  }

  function Exec(s: State, t: seq<Step>): State
    requires CanRun(s, t)
    decreases t
  {
    if t == [] then s else Exec(Apply(s, t[0]), t[1..])
  }

  lemma RunCons(s: State, a: Step, t: seq<Step>)
    requires Enabled(s, a) && CanRun(Apply(s, a), t)
    ensures CanRun(s, [a] + t) && Exec(s, [a] + t) == Exec(Apply(s, a), t)
  {
    assert ([a] + t)[1..] == t;
  }

  /** A driver with its VM `p` running and one watcher. */
  function OneWatcher(p: Proc, reports: Reports): State {
    State(reports, p, {}, {}, [Watcher(p, false, Selecting)], true, NotCalled, p, Unsubscribed, Unsubscribed, false)
  }

  // ---------- soundness ----------

  /** While process `s.cur` runs, the exit channel of `p` is closed or can be: `p` is another
      process, whose exit is reported, or the strategy closes the channel early. */
  predicate CanBeReported(s: State, p: Proc) {
    p in s.closed || p in s.reports.early || (p != s.cur && p !in s.reports.missed)
  }

  /** A watcher that can publish an exit while the current process runs. Cancelling it is of
      no use once it has looked at its context. */
  predicate Misleads(s: State, i: nat) {
    i < |s.watchers| &&
    match s.watchers[i].phase
    case Selecting => !s.watchers[i].cancelled && CanBeReported(s, s.watchers[i].proc)
    case Exiting => !s.watchers[i].cancelled
    case Publishing => true
    case _ => false
  }

  predicate NoneMisleads(s: State) { forall i: nat :: i < |s.watchers| ==> !Misleads(s, i) }

  predicate MentionsExit(x: Waiter) {
    (x.Listening? && ProcessExitEvent in x.queue) || (x.Got? && x.event == ProcessExitEvent)
  }

  /** Holds from the moment Stop takes the mutex. */
  predicate SoundInv(s: State) {
    && s.pc != NotCalled
    && (InStop(s) ==> s.cur == s.target && (s.target !in s.exited ==> NoneMisleads(s)))
    && (InStop(s) && (MentionsExit(s.stopWaiter) || MentionsExit(s.exitWaiter)) ==> s.target in s.exited)
    && (s.exitWaiter.Got? ==> s.exitWaiter.event == ProcessExitEvent)
    && (InStop(s) && s.alreadyExited ==> s.target in s.exited)
    && (s.pc == Connecting || s.pc == Subscribing || s.pc == Checking || s.pc == Quitting ==> !s.alreadyExited)
    && (s.pc in {Subscribing, Checking, Quitting, AwaitStop, Killing, Cleaning} ==> s.mon)
    && (s.pc in {Checking, Quitting, AwaitStop, Killing, Cleaning, AwaitExit} ==>
          !s.stopWaiter.Unsubscribed? && !s.exitWaiter.Unsubscribed?)
    && (s.pc == Done(true, true) ==> s.target in s.exited)
  }

  lemma SoundStep(s: State, a: Step)
    requires SoundInv(s) && Enabled(s, a)
    ensures SoundInv(Apply(s, a))
  {
    match a
    case PublishExit(i) => SoundPublishExit(s, i);
    case Receive(w) => SoundReceive(s, w);
    case SeeDone(i) => SoundPhase(s, a);
    case SeeCancelled(i) => SoundPhase(s, a);
    case Test(i) => SoundPhase(s, a);
    case TakeStop => SoundTakeStop(s);
    case Publish(i, e) => SoundPublish(s, e);
    case ProcExit(_) => SoundReport(s, a);
    case EarlyClose(_) => SoundReport(s, a);
    case _ => SoundControl(s, a);
  }

  lemma SoundControl(s: State, a: Step)
    requires SoundInv(s) && Enabled(s, a) && !a.ProcExit? && !a.EarlyClose? && !a.SeeDone? && !a.SeeCancelled?
    requires !a.Test? && !a.PublishExit? && !a.Receive? && !a.TakeStop? && !a.Publish?
    ensures SoundInv(Apply(s, a))
  {
    if InStop(Apply(s, a)) {
      SameWatchers(s, Apply(s, a));
    }
  }

  lemma SameWatchers(s: State, t: State)
    requires t.watchers == s.watchers && t.cur == s.cur && t.reports == s.reports
    requires forall p :: p in t.closed ==> p in s.closed || p in s.reports.early
    ensures NoneMisleads(s) ==> NoneMisleads(t)
  {
    if NoneMisleads(s) {
      forall i: nat | i < |t.watchers| ensures !Misleads(t, i) {
        assert !Misleads(s, i);
      }
    }
  }

  lemma SoundReport(s: State, a: Step)
    requires SoundInv(s) && Enabled(s, a) && (a.ProcExit? || a.EarlyClose?)
    ensures SoundInv(Apply(s, a))
  {
    SameWatchers(s, Apply(s, a));
  }

  lemma SoundTakeStop(s: State)
    requires SoundInv(s) && Enabled(s, TakeStop)
    ensures SoundInv(Apply(s, TakeStop))
  {
    SameWatchers(s, Apply(s, TakeStop));
  }

  lemma SoundPublish(s: State, e: Event)
    requires SoundInv(s) && e != ProcessExitEvent
    ensures SoundInv(PublishEvent(s, e))
  {
    SameWatchers(s, PublishEvent(s, e));
  }

  /** A watcher that does not mislead leaves its loop only if it is cancelled. */
  lemma SoundPhase(s: State, a: Step)
    requires SoundInv(s) && Enabled(s, a) && (a.SeeDone? || a.SeeCancelled? || a.Test?)
    ensures SoundInv(Apply(s, a))
  {
    if InStop(s) && s.target !in s.exited {
      PhaseStep(s, a);
    }
  }

  lemma PhaseStep(s: State, a: Step)
    requires NoneMisleads(s) && s.cur !in s.exited
    requires Enabled(s, a) && (a.SeeDone? || a.SeeCancelled? || a.Test?)
    ensures NoneMisleads(Apply(s, a))
  {
    var t := Apply(s, a);
    assert !Misleads(s, a.i);
    forall j: nat | j < |t.watchers| ensures !Misleads(t, j) {
      assert !Misleads(s, j);
    }
  }

  /** A watcher that publishes has misled, unless the process has exited. */
  lemma SoundPublishExit(s: State, i: nat)
    requires SoundInv(s) && Enabled(s, PublishExit(i))
    ensures SoundInv(Apply(s, PublishExit(i)))
  {
    assert Misleads(s, i);
    assert InStop(s) ==> s.target in s.exited;
  }

  lemma SoundReceive(s: State, w: Which)
    requires SoundInv(s) && Enabled(s, Receive(w))
    ensures SoundInv(Apply(s, Receive(w)))
  {
    var q := Get(s, w).queue;
    assert q[0] in q && forall e :: e in q[1..] ==> e in q;
    SameWatchers(s, Apply(s, Receive(w)));
  }

  lemma {:induction false} SoundRun(s: State, t: seq<Step>)
    requires SoundInv(s) && CanRun(s, t)
    ensures SoundInv(Exec(s, t))
    decreases t
  {
    if t != [] {
      SoundStep(s, t[0]);
      SoundRun(Apply(s, t[0]), t[1..]);
    }
  }

  /** Stop never returns nil from status Running while its process still runs. */
  ghost predicate StopIsSound(s: State) {
    forall t: seq<Step> :: CanRun(s, t) && Exec(s, t).pc == Done(true, true)
                           ==> Exec(s, t).target in Exec(s, t).exited
  }

  /** No call of Stop is in progress, and none has left anything behind. */
  predicate Fresh(s: State) {
    && s.pc == NotCalled && !s.alreadyExited
    && s.stopWaiter == Unsubscribed && s.exitWaiter == Unsubscribed
  }

  lemma {:induction false} RunConcat(s: State, t: seq<Step>, u: seq<Step>)
    requires CanRun(s, t) && CanRun(Exec(s, t), u)
    ensures CanRun(s, t + u) && Exec(s, t + u) == Exec(Exec(s, t), u)
    decreases t
  {
    if t == [] {
      assert t + u == u;
    } else {
      RunConcat(Apply(s, t[0]), t[1..], u);
      RunCons(s, t[0], t[1..] + u);
      assert t + u == [t[0]] + (t[1..] + u);
    }
  }

  /** The run that breaks soundness: such a watcher publishes an exit once Stop has
      subscribed, and Stop takes it for the exit of the running process. */
  function LeaveLoop(s: State, i: nat): seq<Step>
    requires i < |s.watchers|
  {
    var p := s.watchers[i].proc;
    if s.watchers[i].phase != Selecting then []
    else if Reported(s, p) then [SeeDone(i)]
    else if p in s.reports.early then [EarlyClose(p), SeeDone(i)]
    else [ProcExit(p), SeeDone(i)]
  }

  /** Up to the publication. */
  function Pass(s: State, i: nat): seq<Step>
    requires i < |s.watchers|
  {
    LeaveLoop(s, i) + if s.watchers[i].phase == Publishing then [] else [Test(i)]
  }

  const UP_TO_QUIT: seq<Step> :=
    [Connect(true), Subscribe(StopWaiter), Subscribe(ExitWaiter), Subscribed, Check(Running), Quit(true)]

  function FromExitEvent(i: nat): seq<Step> { [PublishExit(i), Receive(StopWaiter), TakeStop, Clean] }

  /** What the watcher's steps leave alone. */
  predicate SameStop(s: State, t: State) {
    && t.pc == s.pc && t.cur == s.cur && t.target == s.target && t.stopWaiter == s.stopWaiter
    && t.exitWaiter == s.exitWaiter && t.alreadyExited == s.alreadyExited && t.mon == s.mon
    && (s.cur !in s.exited ==> s.cur !in t.exited) && |t.watchers| == |s.watchers|
  }

  lemma LeaveLoopRuns(s: State, i: nat)
    requires Misleads(s, i) && s.cur !in s.exited
    ensures CanRun(s, LeaveLoop(s, i))
    ensures var t := Exec(s, LeaveLoop(s, i));
            && SameStop(s, t) && t.watchers[i].cancelled == s.watchers[i].cancelled
            && t.watchers[i].phase == if s.watchers[i].phase == Selecting then Exiting else s.watchers[i].phase
  {
    var p := s.watchers[i].proc;
    if s.watchers[i].phase == Selecting {
      if Reported(s, p) {
        RunCons(s, SeeDone(i), []);
      } else if p in s.reports.early {
        RunCons(Apply(s, EarlyClose(p)), SeeDone(i), []);
        RunCons(s, EarlyClose(p), [SeeDone(i)]);
      } else {
        RunCons(Apply(s, ProcExit(p)), SeeDone(i), []);
        RunCons(s, ProcExit(p), [SeeDone(i)]);
      }
    }
  }

  lemma PassRuns(s: State, i: nat)
    requires Misleads(s, i) && s.cur !in s.exited
    ensures CanRun(s, Pass(s, i))
    ensures var t := Exec(s, Pass(s, i)); SameStop(s, t) && t.watchers[i].phase == Publishing
  {
    LeaveLoopRuns(s, i);
    var s1 := Exec(s, LeaveLoop(s, i));
    if s.watchers[i].phase == Publishing {
      assert Pass(s, i) == LeaveLoop(s, i);
    } else {
      RunCons(s1, Test(i), []);
      RunConcat(s, LeaveLoop(s, i), [Test(i)]);
    }
  }

  lemma UpToQuitRuns(s: State)
    requires s.pc == Connecting && s.stopWaiter == Unsubscribed && s.exitWaiter == Unsubscribed
    requires s.cur !in s.exited
    ensures CanRun(s, UP_TO_QUIT)
    ensures Exec(s, UP_TO_QUIT) ==
            s.(pc := AwaitStop, mon := true, stopWaiter := Listening([]), exitWaiter := Listening([]))
  {
    var s1 := Apply(s, Connect(true));
    SubscribeBothRuns(s1);
    var s2 := Exec(s1, SUBSCRIBE_BOTH);
    CheckAndQuitRuns(s2);
    RunConcat(s1, SUBSCRIBE_BOTH, [Check(Running), Quit(true)]);
    RunCons(s, Connect(true), SUBSCRIBE_BOTH + [Check(Running), Quit(true)]);
    assert UP_TO_QUIT == [Connect(true)] + (SUBSCRIBE_BOTH + [Check(Running), Quit(true)]);
  }

  const SUBSCRIBE_BOTH: seq<Step> := [Subscribe(StopWaiter), Subscribe(ExitWaiter), Subscribed]

  lemma SubscribeBothRuns(s: State)
    requires s.pc == Subscribing && s.stopWaiter == Unsubscribed && s.exitWaiter == Unsubscribed
    ensures CanRun(s, SUBSCRIBE_BOTH)
    ensures Exec(s, SUBSCRIBE_BOTH) == s.(pc := Checking, stopWaiter := Listening([]), exitWaiter := Listening([]))
  {
    var s1 := Apply(s, Subscribe(StopWaiter));
    var s2 := Apply(s1, Subscribe(ExitWaiter));
    RunCons(s2, Subscribed, []);
    RunCons(s1, Subscribe(ExitWaiter), [Subscribed]);
    RunCons(s, Subscribe(StopWaiter), [Subscribe(ExitWaiter), Subscribed]);
  }

  lemma CheckAndQuitRuns(s: State)
    requires s.pc == Checking && s.cur !in s.exited
    ensures CanRun(s, [Check(Running), Quit(true)])
    ensures Exec(s, [Check(Running), Quit(true)]) == s.(pc := AwaitStop)
  {
    RunCons(Apply(s, Check(Running)), Quit(true), []);
    RunCons(s, Check(Running), [Quit(true)]);
  }

  lemma FromExitEventRuns(s: State, i: nat)
    requires s.pc == AwaitStop && s.stopWaiter == Listening([])
    requires i < |s.watchers| && s.watchers[i].phase == Publishing
    ensures CanRun(s, FromExitEvent(i)) && Exec(s, FromExitEvent(i)).pc == Done(true, true)
    ensures Exec(s, FromExitEvent(i)).exited == s.exited && Exec(s, FromExitEvent(i)).target == s.target
  {
    var s1 := Apply(s, PublishExit(i));
    assert s1.stopWaiter == Listening([ProcessExitEvent]);
    TakenForTheExit(s1);
    RunCons(s, PublishExit(i), [Receive(StopWaiter), TakeStop, Clean]);
  }

  lemma TakenForTheExit(s: State)
    requires s.pc == AwaitStop && s.stopWaiter == Listening([ProcessExitEvent])
    ensures var t := [Receive(StopWaiter), TakeStop, Clean];
            CanRun(s, t) && Exec(s, t).pc == Done(true, true)
            && Exec(s, t).exited == s.exited && Exec(s, t).target == s.target
  {
    var s1 := Apply(s, Receive(StopWaiter));
    var s2 := Apply(s1, TakeStop);
    RunCons(s2, Clean, []);
    RunCons(s1, TakeStop, [Clean]);
    RunCons(s, Receive(StopWaiter), [TakeStop, Clean]);
  }

  lemma MisleadingBreaksSoundness(s: State, i: nat)
    requires Fresh(s) && Misleads(s, i) && s.cur !in s.exited
    ensures !StopIsSound(Apply(s, StopLock))
  {
    var s1 := Apply(s, StopLock);
    assert Misleads(s1, i);
    PassRuns(s1, i);
    var s2 := Exec(s1, Pass(s1, i));
    var rest := MisledStop(s2, i);
    RunConcat(s1, Pass(s1, i), rest);
    var t := Pass(s1, i) + rest;
    assert CanRun(s1, t) && Exec(s1, t).pc == Done(true, true);
  }

  /** The rest of that run, once the watcher is about to publish. */
  lemma MisledStop(s: State, i: nat) returns (t: seq<Step>)
    requires s.pc == Connecting && s.stopWaiter == Unsubscribed && s.exitWaiter == Unsubscribed
    requires s.cur !in s.exited
    requires i < |s.watchers| && s.watchers[i].phase == Publishing
    ensures CanRun(s, t) && Exec(s, t).pc == Done(true, true)
    ensures Exec(s, t).exited == s.exited && Exec(s, t).target == s.target
  {
    UpToQuitRuns(s);
    FromExitEventRuns(Exec(s, UP_TO_QUIT), i);
    t := UP_TO_QUIT + FromExitEvent(i);
    RunConcat(s, UP_TO_QUIT, FromExitEvent(i));
  }

  /** The exact condition: while its VM runs, a call of Stop is sound iff, when it takes the
      mutex, no watcher can publish an exit: none that has looked at its context already,
      none of an earlier process that is not cancelled, and not the current one either,
      whose exit channel may be closed early. */
  lemma StopSoundExactly(s: State)
    requires Fresh(s) && s.cur !in s.exited
    ensures StopIsSound(Apply(s, StopLock)) <==> NoneMisleads(s)
  {
    var s1 := Apply(s, StopLock);
    if NoneMisleads(s) {
      SameWatchers(s, s1);
      assert SoundInv(s1);
      forall t: seq<Step> | CanRun(s1, t) && Exec(s1, t).pc == Done(true, true)
        ensures Exec(s1, t).target in Exec(s1, t).exited
      {
        SoundRun(s1, t);
      }
    } else {
      var i: nat :| i < |s.watchers| && Misleads(s, i);
      MisleadingBreaksSoundness(s, i);
    }
  }

  /** With one watcher, in its loop, it is the strategy alone that decides. */
  lemma OneWatcherExactly(p: Proc, reports: Reports)
    ensures StopIsSound(Apply(OneWatcher(p, reports), StopLock)) <==> p !in reports.early
  {
    var s := OneWatcher(p, reports);
    StopSoundExactly(s);
    assert Misleads(s, 0) <==> p in reports.early;
  }

  /** Restarting before the old watcher has published is not sound. */
  lemma RestartRace(p: Proc, q: Proc, reports: Reports)
    requires p != q && p !in reports.missed
    ensures CanRun(OneWatcher(p, reports), [ProcExit(p), Start(q)])
    ensures var s := Exec(OneWatcher(p, reports), [ProcExit(p), Start(q)]);
            Fresh(s) && s.cur == q && q !in s.exited && !StopIsSound(Apply(s, StopLock))
  {
    var s := OneWatcher(p, reports);
    var s1 := Apply(s, ProcExit(p));
    RunCons(s1, Start(q), []);
    RunCons(s, ProcExit(p), [Start(q)]);
    assert Misleads(Apply(s1, Start(q)), 0);
    MisleadingBreaksSoundness(Apply(s1, Start(q)), 0);
  }

  /** Cancelling the old watcher first does not help if it has looked at its context. */
  lemma CancelledTooLate(p: Proc, q: Proc, reports: Reports)
    requires p != q && p !in reports.missed
    ensures var t := [ProcExit(p), SeeDone(0), Test(0), Cancel(0), Start(q)];
            && CanRun(OneWatcher(p, reports), t)
            && var s := Exec(OneWatcher(p, reports), t);
               && Fresh(s) && s.cur == q && q !in s.exited && s.watchers != [] && s.watchers[0].cancelled
               && !StopIsSound(Apply(s, StopLock))
  {
    var s := OneWatcher(p, reports);
    var s1 := Apply(s, ProcExit(p));
    var s2 := Apply(s1, SeeDone(0));
    var s3 := Apply(s2, Test(0));
    var s4 := Apply(s3, Cancel(0));
    RunCons(s4, Start(q), []);
    RunCons(s3, Cancel(0), [Start(q)]);
    RunCons(s2, Test(0), [Cancel(0), Start(q)]);
    RunCons(s1, SeeDone(0), [Test(0), Cancel(0), Start(q)]);
    RunCons(s, ProcExit(p), [SeeDone(0), Test(0), Cancel(0), Start(q)]);
    assert Misleads(Apply(s4, Start(q)), 0);
    MisleadingBreaksSoundness(Apply(s4, Start(q)), 0);
  }

  // ---------- progress ----------

  /** Steps of Stop, of its waiters, and of watcher `i` towards its exit event: no timer,
      no new process, nothing that needs the mutex Stop is holding. */
  predicate Internal(a: Step, i: nat) {
    match a
    case Quit(_) => true
    case TakeStop => true
    case Kill(_) => true
    case Clean => true
    case TakeExit => true
    case Receive(_) => true
    case SeeDone(j) => i == j
    case Test(j) => i == j
    case PublishExit(j) => i == j
    case _ => false
  }

  predicate PastCheck(s: State) {
    s.pc == Quitting || s.pc == AwaitStop || s.pc == Killing || s.pc == Cleaning || s.pc == AwaitExit
  }

  predicate NoTimeout(s: State) { !s.stopWaiter.TimedOut? && !s.exitWaiter.TimedOut? }

  predicate WillLearn(x: Waiter) {
    Returned(x) || (x.Listening? && ProcessExitEvent in x.queue)
  }

  /** Watcher `i` watches the process being stopped, and it has either not published yet
      or both waiters have the exit event. */
  predicate Tracks(s: State, i: nat) {
    && i < |s.watchers| && !s.watchers[i].cancelled && s.watchers[i].proc == s.target
    && (Returned(s.stopWaiter) || s.stopWaiter.Listening?)
    && (Returned(s.exitWaiter) || s.exitWaiter.Listening?)
    && (s.watchers[i].phase == Selecting || s.watchers[i].phase == Exiting || s.watchers[i].phase == Publishing
        || (WillLearn(s.stopWaiter) && WillLearn(s.exitWaiter)))
  }

  lemma TracksStep(s: State, a: Step, i: nat)
    requires PastCheck(s) && Tracks(s, i) && Enabled(s, a)
    ensures PastCheck(Apply(s, a)) ==> Tracks(Apply(s, a), i)
  {
    match a
    case Receive(w) =>
      var q := Get(s, w).queue;
      assert forall e :: e in q <==> e == q[0] || e in q[1..];
    case _ =>
  }

  function PcRank(pc: Pc): nat {
    match pc
    case Quitting => 5
    case AwaitStop => 4
    case Killing => 3
    case Cleaning => 2
    case AwaitExit => 1
    case _ => 0
  }

  function WaiterRank(x: Waiter): nat { if x.Listening? then 1 + |x.queue| else 0 }

  function Rank(s: State, i: nat): nat
    requires i < |s.watchers|
  {
    var watcher := match s.watchers[i].phase case Selecting => 5 case Exiting => 4 case Publishing => 3 case _ => 0;
    PcRank(s.pc) + WaiterRank(s.stopWaiter) + WaiterRank(s.exitWaiter) + watcher
  }

  predicate Progress(a: Step, i: nat) { Internal(a, i) || a.Timer? }

  /** Every step of Stop, of its waiters and timers, and of watcher `i` towards its exit
      event counts, whatever Quit and Kill answer. */
  lemma EveryStepCounts(s: State, a: Step, i: nat)
    requires i < |s.watchers| && Enabled(s, a) && Progress(a, i)
    ensures |Apply(s, a).watchers| == |s.watchers| && Rank(Apply(s, a), i) < Rank(s, i)
  {
    match a
    case SeeDone(_) =>
    case Test(_) =>
    case PublishExit(_) => PublishCounts(s, i);
    case Receive(w) => ReceiveCounts(s, w);
    case _ => OwnStepCounts(s, a, i);
  }

  lemma PublishCounts(s: State, i: nat)
    requires Enabled(s, PublishExit(i))
    ensures Rank(Apply(s, PublishExit(i)), i) < Rank(s, i)
  {
  }

  lemma ReceiveCounts(s: State, w: Which)
    requires Enabled(s, Receive(w))
    ensures var t := Apply(s, Receive(w));
            && t.pc == s.pc && t.watchers == s.watchers
            && WaiterRank(t.stopWaiter) + WaiterRank(t.exitWaiter)
               < WaiterRank(s.stopWaiter) + WaiterRank(s.exitWaiter)
  {
  }

  lemma OwnStepCounts(s: State, a: Step, i: nat)
    requires i < |s.watchers| && Enabled(s, a)
    requires a.Quit? || a.TakeStop? || a.Kill? || a.Clean? || a.TakeExit? || a.Timer?
    ensures Apply(s, a).watchers == s.watchers && Rank(Apply(s, a), i) < Rank(s, i)
  {
  }

  predicate SameReports(s: State, t: State) {
    t.exited == s.exited && t.closed == s.closed && t.reports == s.reports
  }

  /** Once its exit channel is closed, some step that needs neither a timer nor the mutex is
      enabled, and it brings Stop closer to its end. */
  lemma NextInternalStep(s: State, i: nat) returns (a: Step)
    requires PastCheck(s) && Tracks(s, i) && Reported(s, s.target)
    ensures Internal(a, i) && Enabled(s, a) && Rank(Apply(s, a), i) < Rank(s, i)
    ensures (a.Quit? || a.Kill?) ==> a.ok
    ensures var s1 := Apply(s, a);
            && (PastCheck(s1) || s1.pc.Done?) && s1.target == s.target && SameReports(s, s1)
            && (NoTimeout(s) ==> NoTimeout(s1) && (s1.pc.Done? ==> s1.pc == Done(true, true)))
  {
    a := ChooseStep(s, i);
    EveryStepCounts(s, a, i);
    InternalFacts(s, a, i);
  }

  lemma ChooseStep(s: State, i: nat) returns (a: Step)
    requires PastCheck(s) && Tracks(s, i) && Reported(s, s.target)
    ensures Internal(a, i) && Enabled(s, a) && ((a.Quit? || a.Kill?) ==> a.ok)
  {
    match s.pc
    case Quitting => a := Quit(true);
    case Killing => a := Kill(true);
    case Cleaning => a := Clean;
    case AwaitStop =>
      if Returned(s.stopWaiter) { a := TakeStop; } else { a := NextForWaiter(s, i, StopWaiter); }
    case AwaitExit =>
      if Returned(s.exitWaiter) { a := TakeExit; } else { a := NextForWaiter(s, i, ExitWaiter); }
  }

  lemma InternalFacts(s: State, a: Step, i: nat)
    requires PastCheck(s) && i < |s.watchers| && Enabled(s, a) && Internal(a, i)
    ensures var s1 := Apply(s, a);
            && (PastCheck(s1) || s1.pc.Done?) && s1.target == s.target && SameReports(s, s1)
            && (NoTimeout(s) ==> NoTimeout(s1))
            && (NoTimeout(s) && (a.Kill? ==> a.ok) && s1.pc.Done? ==> s1.pc == Done(true, true))
  {
  }

  lemma NextForWaiter(s: State, i: nat, w: Which) returns (a: Step)
    requires Tracks(s, i) && Reported(s, s.target) && Get(s, w).Listening?
    ensures Internal(a, i) && Enabled(s, a) && (a.Receive? || a.SeeDone? || a.Test? || a.PublishExit?)
  {
    if Get(s, w).queue != [] {
      a := Receive(w);
    } else if s.watchers[i].phase == Selecting {
      a := SeeDone(i);
    } else if s.watchers[i].phase == Exiting {
      a := Test(i);
    } else {
      a := PublishExit(i);
    }
  }

  /** Stop completes: from any state in which it has seen status Running and the exit
      channel is closed, the internal steps alone lead to its return, without the watcher ever
      needing the mutex; with nil when no timer has fired. */
  lemma {:induction false} StopCompletes(s: State, i: nat) returns (t: seq<Step>)
    requires PastCheck(s) && Tracks(s, i) && Reported(s, s.target)
    ensures CanRun(s, t) && forall a :: a in t ==> Internal(a, i)
    ensures Exec(s, t).pc.Done?
    ensures NoTimeout(s) ==> Exec(s, t).pc == Done(true, true)
    decreases Rank(s, i)
  {
    var a := NextInternalStep(s, i);
    var s1 := Apply(s, a);
    TracksStep(s, a, i);
    if PastCheck(s1) {
      t := StopCompletes(s1, i);
    } else {
      t := [];
    }
    RunCons(s, a, t);
    t := [a] + t;
  }

  /** Where Tracks comes from: both waiters subscribed, and the watcher still selecting,
      when the monitor answers that the VM is running. */
  lemma RunningIsTracked(s: State, i: nat)
    requires SoundInv(s) && Enabled(s, Check(Running))
    requires i < |s.watchers| && s.watchers[i] == Watcher(s.cur, false, Selecting)
    ensures PastCheck(Apply(s, Check(Running))) && Tracks(Apply(s, Check(Running)), i)
  {
  }

  lemma {:induction false} TracksRun(s: State, t: seq<Step>, i: nat)
    requires (PastCheck(s) && Tracks(s, i)) || s.pc.Done?
    requires CanRun(s, t)
    ensures (PastCheck(Exec(s, t)) && Tracks(Exec(s, t), i)) || Exec(s, t).pc.Done?
    decreases t
  {
    if t != [] {
      if PastCheck(s) {
        TracksStep(s, t[0], i);
      }
      TracksRun(Apply(s, t[0]), t[1..], i);
    }
  }

  /** Stop is never stuck: it saw status Running while an uncancelled watcher of the VM
      was selecting, anything at all happened since, and the exit channel is closed. If Stop
      has not returned, its own steps and the watcher's publication make it return. */
  lemma StopNeverStuck(s: State, i: nat, t: seq<Step>) returns (u: seq<Step>)
    requires SoundInv(s) && Enabled(s, Check(Running))
    requires i < |s.watchers| && s.watchers[i] == Watcher(s.cur, false, Selecting)
    requires CanRun(Apply(s, Check(Running)), t)
    requires !Exec(Apply(s, Check(Running)), t).pc.Done?
    requires var v := Exec(Apply(s, Check(Running)), t); Reported(v, v.target)
    ensures var v := Exec(Apply(s, Check(Running)), t);
            CanRun(v, u) && Exec(v, u).pc.Done? && forall a :: a in u ==> Internal(a, i)
  {
    RunningIsTracked(s, i);
    TracksRun(Apply(s, Check(Running)), t, i);
    u := StopCompletes(Exec(Apply(s, Check(Running)), t), i);
  }

  // ---------- every schedule ----------

  /** So no such schedule is longer than the rank. */
  lemma {:induction false} SchedulesAreBounded(s: State, t: seq<Step>, i: nat)
    requires i < |s.watchers| && CanRun(s, t) && forall a :: a in t ==> Progress(a, i)
    ensures |Exec(s, t).watchers| == |s.watchers| && |t| + Rank(Exec(s, t), i) <= Rank(s, i)
    decreases t
  {
    if t != [] {
      assert t[0] in t && forall a :: a in t[1..] ==> a in t;
      EveryStepCounts(s, t[0], i);
      SchedulesAreBounded(Apply(s, t[0]), t[1..], i);
    }
  }

  predicate BothSubscribed(s: State) { !s.stopWaiter.Unsubscribed? && !s.exitWaiter.Unsubscribed? }

  /** Whether or not the process has exited, Stop has a step of its own or the timer it
      waits for. */
  lemma StepOrTimer(s: State) returns (a: Step)
    requires PastCheck(s) && BothSubscribed(s)
    ensures Enabled(s, a) && (a.Timer? || forall i: nat :: Internal(a, i))
    ensures a.Timer? ==> (if a.w == StopWaiter then s.pc == AwaitStop else s.pc == AwaitExit)
  {
    match s.pc
    case Quitting => a := Quit(true);
    case Killing => a := Kill(true);
    case Cleaning => a := Clean;
    case AwaitStop => a := if Returned(s.stopWaiter) then TakeStop else Timer(StopWaiter);
    case AwaitExit => a := if Returned(s.exitWaiter) then TakeExit else Timer(ExitWaiter);
  }

  lemma {:induction false} StaysPastCheck(s: State, t: seq<Step>)
    requires (PastCheck(s) && BothSubscribed(s)) || s.pc.Done?
    requires CanRun(s, t)
    ensures var u := Exec(s, t); (PastCheck(u) && BothSubscribed(u)) || u.pc.Done?
    decreases t
  {
    if t != [] {
      StaysPastCheck(Apply(s, t[0]), t[1..]);
    }
  }

  /** A schedule that cannot be extended. */
  ghost predicate Maximal(s: State, t: seq<Step>, i: nat, timers: bool)
    requires CanRun(s, t)
  {
    forall a: Step :: Enabled(Exec(s, t), a) ==> !Internal(a, i) && (timers ==> !a.Timer?)
  }

  /** Stop always returns: with its timers, every schedule that goes on as long as it can
      ends with Stop's return after at most Rank steps, even if the process never exits. */
  lemma EveryScheduleReturns(s: State, t: seq<Step>, i: nat)
    requires PastCheck(s) && BothSubscribed(s) && i < |s.watchers| && CanRun(s, t)
    requires (forall a :: a in t ==> Progress(a, i)) && Maximal(s, t, i, true)
    ensures Exec(s, t).pc.Done? && |t| <= Rank(s, i)
  {
    SchedulesAreBounded(s, t, i);
    StaysPastCheck(s, t);
    if !Exec(s, t).pc.Done? {
      var a := StepOrTimer(Exec(s, t));
    }
  }

  /** Once the exit channel is closed no timer is needed: every internal schedule that goes on
      as long as it can ends with Stop's return, whatever Quit and Kill answer. */
  lemma EveryInternalScheduleReturns(s: State, t: seq<Step>, i: nat)
    requires PastCheck(s) && Tracks(s, i) && Reported(s, s.target) && CanRun(s, t)
    requires (forall a :: a in t ==> Internal(a, i)) && Maximal(s, t, i, false)
    ensures Exec(s, t).pc.Done? && |t| <= Rank(s, i)
  {
    SchedulesAreBounded(s, t, i);
    TracksRun(s, t, i);
    ReportedStays(s, t);
    if !Exec(s, t).pc.Done? {
      var a := NextInternalStep(Exec(s, t), i);
    }
  }

  lemma {:induction false} ReportedStays(s: State, t: seq<Step>)
    requires s.pc != NotCalled && CanRun(s, t) && Reported(s, s.target)
    ensures Reported(Exec(s, t), Exec(s, t).target)
    decreases t
  {
    if t != [] {
      ReportedStep(s, t[0]);
      ReportedStays(Apply(s, t[0]), t[1..]);
    }
  }

  lemma ReportedStep(s: State, a: Step)
    requires s.pc != NotCalled && Enabled(s, a) && Reported(s, s.target)
    ensures Apply(s, a).pc != NotCalled && Reported(Apply(s, a), Apply(s, a).target)
  {
    TargetKept(s, a);
    ReportKept(s, a, s.target);
  }

  lemma TargetKept(s: State, a: Step)
    requires s.pc != NotCalled && Enabled(s, a)
    ensures Apply(s, a).pc != NotCalled && Apply(s, a).target == s.target
  {
  }

  lemma ReportKept(s: State, a: Step, p: Proc)
    requires Enabled(s, a) && Reported(s, p)
    ensures Reported(Apply(s, a), p)
  {
  }

  /** The answer of a Stop that got past its check, over every run: an error exactly when
      Kill failed, or the exit was waited for and its waiter had timed out. */
  lemma {:induction false} AnswerExactly(s: State, t: seq<Step>)
    requires PastCheck(s) && CanRun(s, t) && Exec(s, t).pc.Done?
    ensures Exec(s, t).pc.fromRunning
    ensures !Exec(s, t).pc.ok <==> Kill(false) in t || (TakeExit in t && Exec(s, t).exitWaiter.TimedOut?)
    decreases t
  {
    var a, rest := t[0], t[1..];
    var u := Apply(s, a);
    AnswerStep(s, a);
    assert t == [a] + rest;
    if PastCheck(u) {
      AnswerExactly(u, rest);
    } else {
      DoneStays(u, rest);
    }
  }

  /** Only two steps end in an error. */
  lemma AnswerStep(s: State, a: Step)
    requires PastCheck(s) && Enabled(s, a)
    ensures var u := Apply(s, a);
            if PastCheck(u) then a != Kill(false) && a != TakeExit
            else u.pc.Done? && u.pc.fromRunning && u.exitWaiter == s.exitWaiter
                 && (a == TakeExit ==> Returned(s.exitWaiter))
                 && (!u.pc.ok <==> a == Kill(false) || (a == TakeExit && s.exitWaiter.TimedOut?))
  {
  }

  lemma {:induction false} DoneStays(s: State, t: seq<Step>)
    requires s.pc.Done? && CanRun(s, t)
    ensures Exec(s, t).pc == s.pc && Kill(false) !in t && TakeExit !in t
    ensures Returned(s.exitWaiter) ==> Exec(s, t).exitWaiter == s.exitWaiter
    decreases t
  {
    if t != [] {
      DoneStays(Apply(s, t[0]), t[1..]);
      assert t == [t[0]] + t[1..];
    }
  }

  // ---------- what Stop does, step by step ----------

  /** The steps of Stop itself from Quit on. */
  predicate IsOwn(a: Step) { a.Quit? || a.TakeStop? || a.Kill? || a.Clean? || a.TakeExit? }

  function Own(t: seq<Step>): seq<Step>
    decreases t
  {
    if t == [] then [] else (if IsOwn(t[0]) then [t[0]] else []) + Own(t[1..])
  }

  /** An event that has been taken is one of the two that are waited for. */
  predicate GotWanted(s: State) {
    && (s.stopWaiter.Got? ==> s.stopWaiter.event == StoppedEvent || s.stopWaiter.event == ProcessExitEvent)
    && (s.exitWaiter.Got? ==> s.exitWaiter.event == ProcessExitEvent)
  }

  /** What is received is decided by the event alone. */
  lemma ReceiveIs(s: State, w: Which)
    requires Enabled(s, Receive(w))
    ensures var e, u := Get(s, w).queue[0], Get(Apply(s, Receive(w)), w);
            && (e == ProcessExitEvent ==> u == Got(ProcessExitEvent))
            && (e == StoppedEvent ==>
                u == if w == StopWaiter then Got(StoppedEvent) else Listening(Get(s, w).queue[1..]))
            && (e == OtherEvent ==> u == Listening(Get(s, w).queue[1..]))
  {
  }

  /** A published event reaches exactly the waiters that listen. */
  lemma DeliverIs(s: State, e: Event)
    ensures var u := PublishEvent(s, e);
            && (s.stopWaiter.Listening? ==> u.stopWaiter == Listening(s.stopWaiter.queue + [e]))
            && (s.exitWaiter.Listening? ==> u.exitWaiter == Listening(s.exitWaiter.queue + [e]))
            && (!s.stopWaiter.Listening? ==> u.stopWaiter == s.stopWaiter)
            && (!s.exitWaiter.Listening? ==> u.exitWaiter == s.exitWaiter)
  {
  }

  /** What is left of Stop's own steps, from where it is, and how it ends. */
  predicate Follows(s: State, own: seq<Step>, u: State) {
    match s.pc
    case Quitting =>
      || (own == [Quit(false), Kill(false)] && u.pc == Done(false, true))
      || (own == [Quit(false), Kill(true), Clean, TakeExit] && u.pc == Done(u.exitWaiter.Got?, true))
      || (own != [] && own[0] == Quit(true) && AfterQuit(own[1..], u))
    case AwaitStop => AfterQuit(own, u)
    case Killing => (own == [Kill(false)] && u.pc == Done(false, true)) || AfterKill(s, own, u)
    case Cleaning => AfterClean(s, own, u)
    case AwaitExit => own == [TakeExit] && u.pc == Done(u.exitWaiter.Got?, true)
    case _ => own == []
  }

  /** A stop event lets the guest go on; an exit event ends the waiting; no event in time
      means a kill. */
  predicate AfterQuit(own: seq<Step>, u: State) {
    if u.stopWaiter == TimedOut then
      || (own == [TakeStop, Kill(false)] && u.pc == Done(false, true))
      || (own == [TakeStop, Kill(true), Clean, TakeExit] && u.pc == Done(u.exitWaiter.Got?, true))
    else if u.stopWaiter == Got(StoppedEvent) then
      own == [TakeStop, Clean, TakeExit] && u.pc == Done(u.exitWaiter.Got?, true)
    else
      u.stopWaiter == Got(ProcessExitEvent) && own == [TakeStop, Clean] && u.pc == Done(true, true)
  }

  predicate AfterKill(s: State, own: seq<Step>, u: State) {
    !s.alreadyExited && own == [Kill(true), Clean, TakeExit] && u.pc == Done(u.exitWaiter.Got?, true)
  }

  predicate AfterClean(s: State, own: seq<Step>, u: State) {
    if s.alreadyExited then own == [Clean] && u.pc == Done(true, true)
    else own == [Clean, TakeExit] && u.pc == Done(u.exitWaiter.Got?, true)
  }

  /** `exited` is set only by the exit event. */
  predicate LocalsFit(s: State) {
    && GotWanted(s) && !s.stopWaiter.Unsubscribed? && !s.exitWaiter.Unsubscribed?
    && (s.pc == Quitting || s.pc == AwaitStop || s.pc == Killing || s.pc == AwaitExit ==> !s.alreadyExited)
  }

  lemma LocalsStep(s: State, a: Step)
    requires PastCheck(s) && LocalsFit(s) && Enabled(s, a)
    ensures LocalsFit(Apply(s, a)) && (PastCheck(Apply(s, a)) || Apply(s, a).pc.Done?)
  {
  }

  lemma {:induction false} ReturnedStays(s: State, t: seq<Step>)
    requires CanRun(s, t) && (PastCheck(s) || s.pc.Done?)
    ensures Returned(s.stopWaiter) ==> Exec(s, t).stopWaiter == s.stopWaiter
    ensures Returned(s.exitWaiter) ==> Exec(s, t).exitWaiter == s.exitWaiter
    ensures s.pc.Done? ==> Exec(s, t).pc == s.pc && Own(t) == []
    decreases t
  {
    if t != [] {
      ReturnedStep(s, t[0]);
      ReturnedStays(Apply(s, t[0]), t[1..]);
    }
  }

  lemma ReturnedStep(s: State, a: Step)
    requires Enabled(s, a) && (PastCheck(s) || s.pc.Done?)
    ensures var u := Apply(s, a);
            && (PastCheck(u) || u.pc.Done?) && (s.pc.Done? ==> u.pc == s.pc && !IsOwn(a))
            && (Returned(s.stopWaiter) ==> u.stopWaiter == s.stopWaiter)
            && (Returned(s.exitWaiter) ==> u.exitWaiter == s.exitWaiter)
  {
  }

  /** Other steps leave Stop where it is. */
  lemma OtherStep(s: State, a: Step, own: seq<Step>, u: State)
    requires PastCheck(s) && Enabled(s, a) && !IsOwn(a) && Follows(Apply(s, a), own, u)
    ensures Follows(s, own, u)
  {
    assert Apply(s, a).pc == s.pc && Apply(s, a).alreadyExited == s.alreadyExited;
  }

  lemma OwnStep(s: State, a: Step, own: seq<Step>, u: State)
    requires PastCheck(s) && LocalsFit(s) && Enabled(s, a) && IsOwn(a) && u.pc.Done?
    requires Returned(s.stopWaiter) ==> u.stopWaiter == s.stopWaiter
    requires Returned(s.exitWaiter) ==> u.exitWaiter == s.exitWaiter
    requires if Apply(s, a).pc.Done? then own == [] && u.pc == Apply(s, a).pc else Follows(Apply(s, a), own, u)
    ensures Follows(s, [a] + own, u)
  {
    assert ([a] + own)[1..] == own;
  }

  /** The whole script, over every run from Quit to the return: which steps Stop takes and
      what it answers, decided by what Quit and Kill answer and by what the waiters got. */
  lemma {:induction false} StopScript(s: State, t: seq<Step>)
    requires PastCheck(s) && LocalsFit(s) && CanRun(s, t) && Exec(s, t).pc.Done?
    ensures Follows(s, Own(t), Exec(s, t))
    decreases t
  {
    var a, rest := t[0], t[1..];
    var u := Apply(s, a);
    LocalsStep(s, a);
    ReturnedStays(s, t);
    if u.pc.Done? {
      ReturnedStays(u, rest);
    } else {
      StopScript(u, rest);
    }
    if IsOwn(a) {
      OwnStep(s, a, Own(rest), Exec(s, t));
    } else {
      OtherStep(s, a, Own(rest), Exec(s, t));
    }
    assert Own(t) == if IsOwn(a) then [a] + Own(rest) else Own(rest);
  }

  lemma {:induction false} OwnKeeps(t: seq<Step>, a: Step)
    requires IsOwn(a)
    ensures a in t <==> a in Own(t)
    decreases t
  {
    if t != [] {
      OwnKeeps(t[1..], a);
      assert a in t <==> a == t[0] || a in t[1..];
    }
  }

  lemma ScriptKills(s: State, own: seq<Step>, u: State)
    requires s.pc == Quitting && Follows(s, own, u)
    ensures Kill(true) in own || Kill(false) in own
            <==> Quit(false) in own || (TakeStop in own && u.stopWaiter == TimedOut)
    ensures TakeExit in own
            <==> Kill(false) !in own && !(TakeStop in own && u.stopWaiter == Got(ProcessExitEvent))
  {
    if own[0] == Quit(true) {
      assert own == [Quit(true)] + own[1..];
      AfterQuitKills(own[1..], u);
      assert forall a :: a in own <==> a == Quit(true) || a in own[1..];
    }
  }

  lemma AfterQuitKills(own: seq<Step>, u: State)
    requires AfterQuit(own, u)
    ensures Kill(true) in own || Kill(false) in own <==> u.stopWaiter == TimedOut
    ensures TakeExit in own <==> Kill(false) !in own && u.stopWaiter != Got(ProcessExitEvent)
    ensures TakeStop in own && Quit(false) !in own
  {
  }

  /** In a word: Stop kills exactly when Quit failed or no event came in time, and it waits for
      the exit exactly when it has not failed to kill and has not seen the exit already. */
  lemma KillsExactly(s: State, t: seq<Step>)
    requires s.pc == Quitting && LocalsFit(s) && CanRun(s, t) && Exec(s, t).pc.Done?
    ensures var u := Exec(s, t);
            && (Kill(true) in t || Kill(false) in t
                <==> Quit(false) in t || (TakeStop in t && u.stopWaiter == TimedOut))
            && (TakeExit in t
                <==> Kill(false) !in t && !(TakeStop in t && u.stopWaiter == Got(ProcessExitEvent)))
  {
    StopScript(s, t);
    ScriptKills(s, Own(t), Exec(s, t));
    OwnKeeps(t, Kill(true));
    OwnKeeps(t, Kill(false));
    OwnKeeps(t, Quit(false));
    OwnKeeps(t, TakeStop);
    OwnKeeps(t, TakeExit);
  }

  // ---------- the monitor of a newer process ----------

  /** What processes and watchers do by themselves. */
  predicate Background(a: Step) {
    match a
    case ProcExit(_) => true
    case EarlyClose(_) => true
    case SeeDone(_) => true
    case SeeCancelled(_) => true
    case Test(_) => true
    case Publish(_, _) => true
    case PublishExit(_) => true
    case Finish(_) => true
    case _ => false
  }

  /** A watcher that can get to its last part, where it disconnects the monitor, while the
      current process runs. */
  predicate Leftover(s: State, i: nat) {
    && i < |s.watchers| && s.watchers[i].phase != Gone
    && (s.watchers[i].phase == Selecting ==> s.watchers[i].cancelled || CanBeReported(s, s.watchers[i].proc))
  }

  ghost predicate CanLoseMonitor(s: State) {
    exists t: seq<Step> :: CanRun(s, t) && (forall a :: a in t ==> Background(a))
                           && !Exec(s, t).mon && s.cur !in Exec(s, t).exited
  }

  /** Without anybody's doing a running process can lose its monitor exactly when there is
      such a watcher: one that has left its loop, is cancelled or belongs to an earlier
      process, or the current one if its exit channel may be closed early. */
  lemma LosesMonitorExactly(s: State)
    requires s.pc == NotCalled && s.mon && s.cur !in s.exited
    ensures CanLoseMonitor(s) <==> exists i :: Leftover(s, i)
  {
    if i :| Leftover(s, i) {
      var t := FinishLeftover(s, i);
    } else {
      forall i: nat | i < |s.watchers| ensures OnWatch(s, i) {
        assert !Leftover(s, i);
      }
      forall t: seq<Step> | CanRun(s, t) && (forall a :: a in t ==> Background(a)) && s.cur !in Exec(s, t).exited
        ensures Exec(s, t).mon
      {
        MonitorKept(s, t);
      }
    }
  }

  /** Gone, or in its loop with nothing to make it leave. */
  predicate OnWatch(s: State, i: nat)
    requires i < |s.watchers|
  {
    s.watchers[i].phase == Gone
    || (s.watchers[i].phase == Selecting && !s.watchers[i].cancelled && !CanBeReported(s, s.watchers[i].proc))
  }

  lemma {:induction false} MonitorKept(s: State, t: seq<Step>)
    requires s.mon && forall i: nat :: i < |s.watchers| ==> OnWatch(s, i)
    requires CanRun(s, t) && (forall a :: a in t ==> Background(a)) && s.cur !in Exec(s, t).exited
    ensures Exec(s, t).mon
    decreases t
  {
    if t != [] {
      assert t[0] in t && forall a :: a in t[1..] ==> a in t;
      CurExitedStays(s, t);
      MonitorStep(s, t[0]);
      MonitorKept(Apply(s, t[0]), t[1..]);
    }
  }

  lemma MonitorStep(s: State, a: Step)
    requires s.mon && s.cur !in s.exited && Enabled(s, a) && Background(a)
    requires forall i: nat :: i < |s.watchers| ==> OnWatch(s, i)
    ensures Apply(s, a).mon && Apply(s, a).cur == s.cur
    ensures forall i: nat :: i < |Apply(s, a).watchers| ==> OnWatch(Apply(s, a), i)
  {
    WatchersStill(s, a);
    forall i: nat | i < |Apply(s, a).watchers| ensures OnWatch(Apply(s, a), i) {
      assert OnWatch(s, i);
    }
  }

  lemma WatchersStill(s: State, a: Step)
    requires s.mon && s.cur !in s.exited && Enabled(s, a) && Background(a)
    requires forall i: nat :: i < |s.watchers| ==> OnWatch(s, i)
    ensures a.ProcExit? || a.EarlyClose? || a.Publish?
  {
    assert a.SeeDone? || a.SeeCancelled? || a.Test? || a.PublishExit? || a.Finish? ==> OnWatch(s, a.i);
  }

  lemma {:induction false} CurExitedStays(s: State, t: seq<Step>)
    requires CanRun(s, t)
    ensures forall p :: p in s.exited ==> p in Exec(s, t).exited
    decreases t
  {
    if t != [] {
      CurExitedStays(Apply(s, t[0]), t[1..]);
    }
  }

  lemma FinishLeftover(s: State, i: nat) returns (t: seq<Step>)
    requires s.pc == NotCalled && s.cur !in s.exited && Leftover(s, i)
    ensures CanRun(s, t) && (forall a :: a in t ==> Background(a))
    ensures !Exec(s, t).mon && s.cur !in Exec(s, t).exited
  {
    if s.watchers[i].phase == Selecting && s.watchers[i].cancelled {
      t := FinishExiting(Apply(s, SeeCancelled(i)), i);
      RunCons(s, SeeCancelled(i), t);
      t := [SeeCancelled(i)] + t;
    } else if s.watchers[i].phase == Selecting {
      LeaveLoopRuns(s, i);
      t := FinishExiting(Exec(s, LeaveLoop(s, i)), i);
      RunConcat(s, LeaveLoop(s, i), t);
      t := LeaveLoop(s, i) + t;
    } else {
      t := FinishExiting(s, i);
    }
  }

  lemma FinishExiting(s: State, i: nat) returns (t: seq<Step>)
    requires s.pc == NotCalled && i < |s.watchers| && s.watchers[i].phase != Selecting && s.watchers[i].phase != Gone
    ensures CanRun(s, t) && (forall a :: a in t ==> Background(a))
    ensures !Exec(s, t).mon && Exec(s, t).exited == s.exited
    decreases s.watchers[i].phase == Exiting, s.watchers[i].phase == Publishing
  {
    var a := match s.watchers[i].phase case Exiting => Test(i) case Publishing => PublishExit(i) case _ => Finish(i);
    var s1 := Apply(s, a);
    if a.Finish? {
      t := [];
    } else {
      t := FinishExiting(s1, i);
    }
    RunCons(s, a, t);
    t := [a] + t;
  }

  // ---------- waitForEvent ----------

  predicate Unwanted(c: Option<Event>, w: Which) { c.Some? && !Wants(w, c.value) }

  /** The loop of waitForEvent. `selected` is what its select statement picks, one after the
      other: an event, or (None) the stopper's closed channel. While neither a wanted event
      nor the stopper has been picked the call goes on listening. */
  method WaitForEvent(selected: seq<Option<Event>>, w: Which) returns (r: Waiter)
    ensures r == Listening([]) <==>
            forall k :: 0 <= k < |selected| ==>
              selected[k] == Some(OtherEvent) || (w == ExitWaiter && selected[k] == Some(StoppedEvent))
    ensures r != Listening([]) ==>
              exists k :: 0 <= k < |selected|
                          && (forall j :: 0 <= j < k ==> selected[j] == Some(OtherEvent)
                                                         || (w == ExitWaiter && selected[j] == Some(StoppedEvent)))
                          && selected[k] != Some(OtherEvent) && (w == ExitWaiter ==> selected[k] != Some(StoppedEvent))
                          && (selected[k] == None ==> r == TimedOut)
                          && (selected[k] == Some(StoppedEvent) ==> r == Got(StoppedEvent))
                          && (selected[k] == Some(ProcessExitEvent) ==> r == Got(ProcessExitEvent))
  {
    for i := 0 to |selected|
      invariant forall k :: 0 <= k < i ==> Unwanted(selected[k], w)
    {
      match selected[i]
      case Some(evt) =>
        if Wants(w, evt) {
          return Got(evt);
        }
      case None => return TimedOut;
    }
    return Listening([]);
  }
}

/** Who closes the pidfd: one strategy of execution/fork.go (its methods, and the
    goroutines `watch` starts) together with the shared waiter, the kernel and every
    other client of the waiter, as one step system. FindRunning and Start may be called
    any number of times; Close is called at most once for each pidfd. */
module ForkOwnership {
  import opened Text
  import E = Epoll

  /** A goroutine reads quitCh when it gets to run, and waits for what it read. */
  datatype Goroutine = Spawned | Blocked(ch: E.Chan) | Reaped

  datatype Closer =
    | Idle
    | Removing(ok: bool)    // Remove returned (nil iff ok), close(pidFd) to come; holds mu
    | Finished(ok: bool)
    | Skipped               // pidFd was -1

  datatype State = State(
    w: E.State,
    pidFd: E.Fd,
    opening: bool,          // pidFd assigned, Add to come; holds mu
    quit: Option<E.Chan>,
    goroutines: seq<Goroutine>,
    closer: Closer,         // Close, since pidFd was last assigned
    launched: bool,         // history: pidFd has been assigned
    watched: bool,          // history: since then Add has succeeded, so quit is its channel
    held: set<E.Fd>,        // history: opened by this strategy and not closed by it
    closes: nat)            // history: how often it closed the last pidfd

  datatype Step =
    | Launch(fd: E.Fd, p: E.Proc)   // FindRunning or Start obtains a pidfd
    | Watch(sysOk: bool)            // then adds it to the waiter
    | Read(i: nat)                  // goroutine i evaluates s.quitCh
    | CloseBegin(sysOk: bool)
    | CloseEnd
    | Reap(i: nat)                  // goroutine i, after its channel closed
    | Other(a: E.Step)              // kernel, run loop, other clients

  function Init(): State { State(E.Init(), -1, false, None, [], Idle, false, false, {}, 0) }

  predicate LockFree(s: State) { !s.opening && !s.closer.Removing? }

  /** While the strategy holds a descriptor nobody else names it. */
  predicate Foreign(s: State, a: E.Step) {
    match a
    case Add(f, _) => f !in s.held
    case Remove(f, _) => f !in s.held
    case CloseFd(f) => f !in s.held
    case _ => true
  }

  predicate Enabled(s: State, a: Step) {
    match a
    case Launch(f, _) => LockFree(s) && f >= 0 && f !in s.w.files
    case Watch(_) => s.opening && E.MutexFree(s.w)
    case Read(i) => i < |s.goroutines| && s.goroutines[i].Spawned? && s.quit.Some?
    case CloseBegin(_) => LockFree(s) && s.closer == Idle && (s.pidFd != -1 ==> E.MutexFree(s.w))
    case CloseEnd => s.closer.Removing?
    case Reap(i) => LockFree(s) && i < |s.goroutines| && s.goroutines[i].Blocked?
                    && s.goroutines[i].ch in s.w.closed
    case Other(e) => E.Enabled(s.w, e) && Foreign(s, e)
  }

  /** close(2): an error (ignored or logged) when the number is not open. */
  function SysClose(w: E.State, f: E.Fd): E.State {
    if f in w.files then E.Apply(w, E.CloseFd(f)) else w
  }

  function Apply(s: State, a: Step): State
    requires Enabled(s, a)
  {
    match a
    case Launch(f, p) =>
      s.(w := E.Apply(s.w, E.Open(f, p)), pidFd := f, opening := true,
         launched := true, watched := false, held := s.held + {f}, closer := Idle, closes := 0)
    case Watch(sysOk) =>
      var r := E.AddResult(s.w, s.pidFd, sysOk);
      s.(w := E.Apply(s.w, E.Add(s.pidFd, sysOk)), opening := false,
         quit := if r.Some? then r else s.quit, watched := r.Some?,
         goroutines := if r.Some? then s.goroutines + [Spawned] else s.goroutines)
    case Read(i) => s.(goroutines := s.goroutines[i := Blocked(s.quit.value)])
    case CloseBegin(sysOk) =>
      if s.pidFd == -1 then s.(closer := Skipped)
      else s.(w := E.Apply(s.w, E.Remove(s.pidFd, sysOk)),
              closer := Removing(E.RemoveOk(s.w, s.pidFd, sysOk)))
    case CloseEnd =>
      s.(w := SysClose(s.w, s.pidFd), closes := s.closes + 1, held := s.held - {s.pidFd},
         closer := Finished(s.closer.ok))
    case Reap(i) =>
      var t := s.(goroutines := s.goroutines[i := Reaped]);
      if s.pidFd == -1 then t
      else t.(w := SysClose(s.w, s.pidFd), closes := s.closes + 1, held := s.held - {s.pidFd}, pidFd := -1)
    case Other(e) => s.(w := E.Apply(s.w, e))
  }

  predicate CanRun(s: State, t: seq<Step>)
    decreases t
  {
    t == [] || (Enabled(s, t[0]) && CanRun(Apply(s, t[0]), t[1..]))
  }

  function Exec(s: State, t: seq<Step>): State
    requires CanRun(s, t)
    decreases t
  {
    if t == [] then s else Exec(Apply(s, t[0]), t[1..])
  }

  lemma RunCons(s: State, a: Step, t: seq<Step>)
    requires Enabled(s, a) && CanRun(Apply(s, a), t)
    ensures CanRun(s, [a] + t) && Exec(s, [a] + t) == Exec(Apply(s, a), t)
  {
    assert ([a] + t)[1..] == t;
  }

  lemma {:induction false} RunConcat(s: State, t: seq<Step>, u: seq<Step>)
    requires CanRun(s, t) && CanRun(Exec(s, t), u)
    ensures CanRun(s, t + u) && Exec(s, t + u) == Exec(Exec(s, t), u)
    decreases t
  {
    if t == [] {
      assert t + u == u;
    } else {
      RunConcat(Apply(s, t[0]), t[1..], u);
      RunCons(s, t[0], t[1..] + u);
      assert t + u == [t[0]] + (t[1..] + u);
    }
  }

  // ---------- what every interleaving keeps ----------

  /** Some map entry leads to `c`, or it has been closed. */
  ghost predicate Reachable(w: E.State, c: E.Chan) {
    c in w.closed || exists f :: f in w.fdmap && w.fdmap[f] == c
  }

  /** It can no longer be closed. */
  ghost predicate Unreachable(w: E.State, c: E.Chan) { c < w.nextChan && !Reachable(w, c) }

  /** The channel goroutine `i` waits for, or would wait for if it ran now. */
  function Target(s: State, i: nat): Option<E.Chan>
    requires i < |s.goroutines|
  {
    match s.goroutines[i]
    case Spawned => s.quit
    case Blocked(c) => Some(c)
    case Reaped => None
  }

  predicate Made(s: State, i: nat)
    requires i < |s.goroutines|
  {
    !s.goroutines[i].Reaped? ==> Target(s, i).Some? && Target(s, i).value < s.w.nextChan
  }

  function B(b: bool): nat { if b then 1 else 0 }

  /** The accounts: the last pidfd has been closed once by Close and once by a goroutine,
      or once by one of them, or not at all. */
  predicate Accounts(s: State) {
    && s.closes == B(s.closer.Finished?) + B(s.launched && s.pidFd == -1)
    && (!s.launched ==> s.pidFd == -1 && s.goroutines == [] && !s.opening && !s.watched)
    && (s.opening ==> s.closer == Idle && s.pidFd != -1 && !s.watched)
    && (s.closer.Removing? ==> s.pidFd != -1)
    && (s.closer == Skipped ==> s.pidFd == -1)
    && (s.closer.Finished? ==> s.launched)
    && (s.pidFd != -1 && s.closes == 0 ==> s.pidFd in s.held)
  }

  predicate Channels(s: State) {
    && (s.goroutines != [] || s.watched ==> s.quit.Some?)
    && (s.quit.Some? ==> s.quit.value < s.w.nextChan)
    && (forall i :: 0 <= i < |s.goroutines| ==> Made(s, i))
    && (s.watched ==> s.goroutines != [])
    && (s.watched && s.pidFd != -1 ==> Target(s, |s.goroutines| - 1) == s.quit)
  }

  ghost predicate Inv(s: State) {
    E.Safe(s.w) && Accounts(s) && Channels(s) && (forall f :: f in s.held ==> f in s.w.files && f != -1)
  }

  lemma AccountsStep(s: State, a: Step)
    requires Accounts(s) && Enabled(s, a)
    ensures Accounts(Apply(s, a))
  {
  }

  lemma ChannelsStep(s: State, a: Step)
    requires Channels(s) && Accounts(s) && Enabled(s, a)
    ensures Channels(Apply(s, a))
  {
    var t := Apply(s, a);
    NextChanGrows(s, a);
    forall i | 0 <= i < |t.goroutines| ensures Made(t, i) {
      if i < |s.goroutines| {
        assert Made(s, i);
      }
    }
  }

  lemma NextChanGrows(s: State, a: Step)
    requires Enabled(s, a)
    ensures s.w.nextChan <= Apply(s, a).w.nextChan
    ensures a.Watch? && E.AddResult(s.w, s.pidFd, a.sysOk).Some? ==> s.w.nextChan < Apply(s, a).w.nextChan
  {
    if a.Other? {
      NextChanKept(s.w, a.a);
    }
  }

  lemma NextChanKept(w: E.State, a: E.Step)
    requires E.Enabled(w, a)
    ensures w.nextChan <= E.Apply(w, a).nextChan
  {
  }

  /** The step a strategy's step makes the waiter take, if any. */
  function WaiterStep(s: State, a: Step): seq<E.Step> {
    match a
    case Launch(f, p) => [E.Open(f, p)]
    case Watch(sysOk) => [E.Add(s.pidFd, sysOk)]
    case CloseBegin(sysOk) => if s.pidFd == -1 then [] else [E.Remove(s.pidFd, sysOk)]
    case CloseEnd => if s.pidFd in s.w.files then [E.CloseFd(s.pidFd)] else []
    case Reap(_) => if s.pidFd != -1 && s.pidFd in s.w.files then [E.CloseFd(s.pidFd)] else []
    case Other(e) => [e]
    case Read(_) => []
  }

  lemma WaiterStepIs(s: State, a: Step)
    requires Enabled(s, a)
    ensures E.CanRun(s.w, WaiterStep(s, a)) && E.Exec(s.w, WaiterStep(s, a)) == Apply(s, a).w
  {
    var t := WaiterStep(s, a);
    if t != [] {
      assert t[1..] == [];
    }
  }

  lemma HeldStep(s: State, a: Step)
    requires Enabled(s, a) && forall f :: f in s.held ==> f in s.w.files && f != -1
    ensures forall f :: f in Apply(s, a).held ==> f in Apply(s, a).w.files && f != -1
  {
    if a.Other? {
      FilesKept(s.w, a.a);
    }
  }

  lemma FilesKept(w: E.State, a: E.Step)
    requires E.Enabled(w, a)
    ensures forall f :: f in w.files && a != E.CloseFd(f) ==> f in E.Apply(w, a).files
  {
  }

  lemma InvStep(s: State, a: Step)
    requires Inv(s) && Enabled(s, a)
    ensures Inv(Apply(s, a))
  {
    WaiterStepIs(s, a);
    E.SafeRun(s.w, WaiterStep(s, a));
    AccountsStep(s, a);
    ChannelsStep(s, a);
    HeldStep(s, a);
  }

  /** Over every interleaving, with any number of launches. */
  lemma {:induction false} InvRun(s: State, t: seq<Step>)
    requires Inv(s) && CanRun(s, t)
    ensures Inv(Exec(s, t))
    decreases t
  {
    if t != [] {
      InvStep(s, t[0]);
      InvRun(Apply(s, t[0]), t[1..]);
    }
  }

  /** The last pidfd's number is closed at most twice; twice exactly when Close went through
      with its own close and a goroutine did as well. */
  lemma ClosesExactly(t: seq<Step>)
    requires CanRun(Init(), t)
    ensures var s := Exec(Init(), t);
            s.closes <= 2 && (s.closes == 2 <==> s.closer.Finished? && s.pidFd == -1)
  {
    InvRun(Init(), t);
  }

  // ---------- launches that no earlier goroutine can disturb ----------

  /** No goroutine can run any more: the channel of each one still waiting is lost. */
  ghost predicate NoStray(s: State) {
    forall i :: 0 <= i < |s.goroutines| && Target(s, i).Some? ==> Unreachable(s.w, Target(s, i).value)
  }

  /** Every goroutine still waiting waits for the current channel or for ever. */
  ghost predicate Harmless(s: State, i: nat)
    requires i < |s.goroutines|
  {
    Target(s, i).Some? ==> Unreachable(s.w, Target(s, i).value) || (s.watched && Target(s, i) == s.quit)
  }

  predicate Mapped(s: State) {
    && s.quit.Some? && s.pidFd in s.w.fdmap && s.w.fdmap[s.pidFd] == s.quit.value
    && s.pidFd in s.w.files
    && (s.quit.value !in s.w.closed ==> s.pidFd in s.w.interest)
  }

  /** What then holds of the current pidfd. */
  ghost predicate Quiet(s: State) {
    && (forall i :: 0 <= i < |s.goroutines| ==> Harmless(s, i))
    && (!s.watched && s.pidFd in s.held ==> s.pidFd !in s.w.interest)
    && (s.launched && !s.watched ==> s.pidFd != -1)
    && (s.watched && s.pidFd == -1 ==> s.quit.Some? && s.quit.value in s.w.closed)
    && (s.watched && s.closer == Idle && s.pidFd != -1 ==> Mapped(s))
    && (s.closer == Removing(true) || s.closer == Finished(true) ==>
          s.watched && s.quit.Some? && Unreachable(s.w, s.quit.value))
  }

  lemma {:induction false} UnreachableRun(w: E.State, t: seq<E.Step>, c: E.Chan)
    requires E.Safe(w) && E.CanRun(w, t) && Unreachable(w, c)
    ensures Unreachable(E.Exec(w, t), c)
    decreases t
  {
    if t != [] {
      E.SafeStep(w, t[0]);
      UnreachableStep(w, t[0], c);
      UnreachableRun(E.Apply(w, t[0]), t[1..], c);
    }
  }

  lemma UnreachableStep(w: E.State, a: E.Step, c: E.Chan)
    requires E.Enabled(w, a) && Unreachable(w, c)
    ensures Unreachable(E.Apply(w, a), c)
  {
    match a
    case Process => UnreachableProcess(w, c);
    case Add(f, sysOk) => UnreachableAdd(w, f, sysOk, c);
    case _ =>
  }

  lemma UnreachableProcess(w: E.State, c: E.Chan)
    requires E.Enabled(w, E.Process) && Unreachable(w, c)
    ensures Unreachable(E.Apply(w, E.Process), c)
  {
  }

  lemma UnreachableAdd(w: E.State, f: E.Fd, sysOk: bool, c: E.Chan)
    requires E.Enabled(w, E.Add(f, sysOk)) && Unreachable(w, c)
    ensures Unreachable(E.Apply(w, E.Add(f, sysOk)), c)
  {
  }

  lemma HarmlessStep(s: State, a: Step)
    requires Inv(s) && Enabled(s, a) && !a.Launch?
    requires forall i :: 0 <= i < |s.goroutines| ==> Harmless(s, i)
    ensures forall i :: 0 <= i < |Apply(s, a).goroutines| ==> Harmless(Apply(s, a), i)
  {
    var t := Apply(s, a);
    WaiterStepIs(s, a);
    forall i | 0 <= i < |t.goroutines| ensures Harmless(t, i) {
      if i < |s.goroutines| {
        assert Harmless(s, i) && Made(s, i);
        if Target(s, i).Some? && Unreachable(s.w, Target(s, i).value) {
          UnreachableRun(s.w, WaiterStep(s, a), Target(s, i).value);
        }
      }
    }
  }

  /** Once no goroutine is left that can run, a launch starts a quiet generation. */
  lemma QuietLaunch(s: State, f: E.Fd, p: E.Proc)
    requires Inv(s) && Enabled(s, Launch(f, p)) && NoStray(s)
    ensures Quiet(Apply(s, Launch(f, p)))
  {
    var t := Apply(s, Launch(f, p));
    assert f in s.w.interest ==> E.Registered(s.w, f);
    forall i | 0 <= i < |t.goroutines| ensures Harmless(t, i) {
      if Target(s, i).Some? {
        UnreachableStep(s.w, E.Open(f, p), Target(s, i).value);
      }
    }
  }

  lemma QuietStep(s: State, a: Step)
    requires Inv(s) && Quiet(s) && Enabled(s, a) && !a.Launch?
    ensures Quiet(Apply(s, a))
  {
    HarmlessStep(s, a);
    match a
    case Watch(sysOk) => QuietWatch(s, sysOk);
    case Read(i) =>
    case CloseBegin(sysOk) => QuietCloseBegin(s, sysOk);
    case CloseEnd => QuietCloseEnd(s);
    case Reap(i) => QuietReap(s, i);
    case Other(e) => QuietOther(s, e);
  }

  lemma QuietWatch(s: State, sysOk: bool)
    requires Inv(s) && Quiet(s) && Enabled(s, Watch(sysOk))
    requires forall i :: 0 <= i < |Apply(s, Watch(sysOk)).goroutines| ==> Harmless(Apply(s, Watch(sysOk)), i)
    ensures Quiet(Apply(s, Watch(sysOk)))
  {
  }

  lemma QuietCloseBegin(s: State, sysOk: bool)
    requires Inv(s) && Quiet(s) && Enabled(s, CloseBegin(sysOk))
    requires forall i :: 0 <= i < |s.goroutines| ==> Harmless(Apply(s, CloseBegin(sysOk)), i)
    ensures Quiet(Apply(s, CloseBegin(sysOk)))
  {
    if s.pidFd != -1 {
      assert s.pidFd in s.w.interest ==> E.Registered(s.w, s.pidFd);
    }
  }

  lemma QuietCloseEnd(s: State)
    requires Inv(s) && Quiet(s) && Enabled(s, CloseEnd)
    requires forall i :: 0 <= i < |s.goroutines| ==> Harmless(Apply(s, CloseEnd), i)
    ensures Quiet(Apply(s, CloseEnd))
  {
  }

  lemma QuietReap(s: State, i: nat)
    requires Inv(s) && Quiet(s) && Enabled(s, Reap(i))
    requires forall j :: 0 <= j < |s.goroutines| ==> Harmless(Apply(s, Reap(i)), j)
    ensures Quiet(Apply(s, Reap(i)))
  {
    assert Harmless(s, i);
  }

  /** What a step of the waiter does to an entry it does not name. */
  lemma EntryKept(w: E.State, a: E.Step, f: E.Fd)
    requires E.Enabled(w, a) && !(a.Add? && a.fd == f) && !(a.Remove? && a.fd == f)
    ensures f in E.Apply(w, a).fdmap <==> f in w.fdmap
    ensures f in w.fdmap ==> E.Apply(w, a).fdmap[f] == w.fdmap[f]
  {
    if !a.Add? && !a.Remove? {
      MapKept(w, a);
    }
  }

  lemma MapKept(w: E.State, a: E.Step)
    requires E.Enabled(w, a) && !a.Add? && !a.Remove?
    ensures E.Apply(w, a).fdmap == w.fdmap
  {
  }

  lemma ClosedGrows(w: E.State, a: E.Step)
    requires E.Enabled(w, a)
    ensures forall c :: c in w.closed ==> c in E.Apply(w, a).closed
  {
  }

  lemma InterestKept(w: E.State, a: E.Step, f: E.Fd)
    requires E.Safe(w) && E.Enabled(w, a)
    requires !(a.Add? && a.fd == f) && !(a.Remove? && a.fd == f) && !(a.CloseFd? && a.fd == f)
    ensures f !in w.interest ==> f !in E.Apply(w, a).interest
    ensures E.Watched(w, f) && f in w.interest ==> f in E.Apply(w, a).interest
  {
  }

  lemma QuietOther(s: State, e: E.Step)
    requires Inv(s) && Quiet(s) && Enabled(s, Other(e))
    requires forall i :: 0 <= i < |s.goroutines| ==> Harmless(Apply(s, Other(e)), i)
    ensures Quiet(Apply(s, Other(e)))
  {
    if s.pidFd in s.held {
      EntryKept(s.w, e, s.pidFd);
      InterestKept(s.w, e, s.pidFd);
      FilesKept(s.w, e);
    }
    ClosedGrows(s.w, e);
    if s.quit.Some? && Unreachable(s.w, s.quit.value) {
      UnreachableStep(s.w, e, s.quit.value);
    }
  }

  /** Every launch of the run finds no goroutine that can still run. */
  ghost predicate QuietLaunches(s: State, t: seq<Step>)
    requires CanRun(s, t)
    decreases t
  {
    t == [] || ((t[0].Launch? ==> NoStray(s)) && QuietLaunches(Apply(s, t[0]), t[1..]))
  }

  lemma {:induction false} QuietRun(s: State, t: seq<Step>)
    requires Inv(s) && Quiet(s) && CanRun(s, t) && QuietLaunches(s, t)
    ensures Inv(Exec(s, t)) && Quiet(Exec(s, t))
    decreases t
  {
    if t != [] {
      InvStep(s, t[0]);
      if t[0].Launch? {
        QuietLaunch(s, t[0].fd, t[0].p);
      } else {
        QuietStep(s, t[0]);
      }
      QuietRun(Apply(s, t[0]), t[1..]);
    }
  }

  /** If Close's Remove returned nil, the pidfd has been closed once when Close is done. */
  predicate ClosedOnce(s: State) { s.closer == Finished(true) ==> s.closes == 1 }

  /** A pidfd being watched is open, known to the strategy, and registered for its channel. */
  predicate WatchKept(s: State) {
    s.watched && s.closer == Idle && s.quit.Some? && s.quit.value !in s.w.closed ==> s.pidFd != -1 && Mapped(s)
  }

  /** Over every run whose launches are quiet: once Close's Remove has returned nil the
      quit channel is never closed and the pidfd is closed exactly once; and a pidfd that
      is being watched stays open and registered. */
  lemma RemoveNilClosesOnce(t: seq<Step>)
    requires CanRun(Init(), t) && QuietLaunches(Init(), t)
    ensures var s := Exec(Init(), t);
            && ClosedOnce(s) && WatchKept(s)
            && (s.closer == Finished(true) ==> s.quit.Some? && s.quit.value !in s.w.closed && s.pidFd != -1)
  {
    QuietRun(Init(), t);
  }

  // ---------- the other clients' wake-ups ----------

  /** Everybody else keeps the waiter's closing rule, and Close's Remove meets no
      resource failure. */
  predicate Orderly(s: State, a: Step) {
    (a.Other? ==> E.Disciplined(s.w, a.a)) && (a.CloseBegin? ==> a.sysOk)
  }

  predicate OrderlyRun(s: State, t: seq<Step>)
    requires CanRun(s, t)
    decreases t
  {
    t == [] || (Orderly(s, t[0]) && OrderlyRun(Apply(s, t[0]), t[1..]))
  }

  /** A number the strategy may still close is not being watched once Close has begun: its
      Remove went through, or the number is spent. */
  ghost predicate WakeInv(s: State) {
    && E.Tracked(s.w)
    && (s.closer.Removing? ==> !E.Watched(s.w, s.pidFd))
    && (s.watched && s.pidFd != -1 && (s.closer == Removing(false) || s.closer == Finished(false)) ==>
          E.Spent(s.w, s.pidFd))
  }

  lemma WakeStep(s: State, a: Step)
    requires Inv(s) && Quiet(s) && WakeInv(s) && Enabled(s, a) && Orderly(s, a)
    ensures WakeInv(Apply(s, a))
  {
    match a
    case Launch(f, p) => E.TrackedStep(s.w, E.Open(f, p));
    case Watch(sysOk) => E.TrackedStep(s.w, E.Add(s.pidFd, sysOk));
    case Read(i) =>
    case CloseBegin(_) => WakeCloseBegin(s);
    case CloseEnd => TrackedSysClose(s.w, s.pidFd);
    case Reap(i) => WakeReap(s, i);
    case Other(e) => WakeOther(s, e);
  }

  lemma WakeCloseBegin(s: State)
    requires Inv(s) && Quiet(s) && WakeInv(s) && Enabled(s, CloseBegin(true))
    ensures WakeInv(Apply(s, CloseBegin(true)))
  {
    if s.pidFd != -1 {
      E.TrackedStep(s.w, E.Remove(s.pidFd, true));
      assert E.Watched(s.w, s.pidFd) ==> E.Covered(s.w, s.pidFd);
    }
  }

  /** A goroutine closes a number that is spent, or none. */
  lemma WakeReap(s: State, i: nat)
    requires Inv(s) && Quiet(s) && WakeInv(s) && Enabled(s, Reap(i))
    ensures WakeInv(Apply(s, Reap(i)))
  {
    assert Harmless(s, i);
    if s.pidFd != -1 {
      TrackedSysClose(s.w, s.pidFd);
    }
  }

  lemma WakeOther(s: State, e: E.Step)
    requires Inv(s) && WakeInv(s) && Enabled(s, Other(e)) && E.Disciplined(s.w, e)
    ensures WakeInv(Apply(s, Other(e)))
  {
    E.TrackedStep(s.w, e);
    if s.closer.Removing? {
      EntryKept(s.w, e, s.pidFd);
    }
    if E.Spent(s.w, s.pidFd) {
      assert s.pidFd in s.w.interest ==> E.Registered(s.w, s.pidFd);
      E.SpentStep(s.w, s.pidFd, e);
    }
  }

  lemma TrackedSysClose(w: E.State, f: E.Fd)
    requires E.Safe(w) && E.Tracked(w) && !E.Watched(w, f)
    ensures E.Tracked(SysClose(w, f))
  {
    if f in w.files {
      E.TrackedStep(w, E.CloseFd(f));
    }
  }

  lemma {:induction false} WakeRun(s: State, t: seq<Step>)
    requires Inv(s) && Quiet(s) && WakeInv(s) && CanRun(s, t) && OrderlyRun(s, t) && QuietLaunches(s, t)
    ensures Inv(Exec(s, t)) && WakeInv(Exec(s, t))
    decreases t
  {
    if t != [] {
      InvStep(s, t[0]);
      WakeStep(s, t[0]);
      if t[0].Launch? {
        QuietLaunch(s, t[0].fd, t[0].p);
      } else {
        QuietStep(s, t[0]);
      }
      WakeRun(Apply(s, t[0]), t[1..]);
    }
  }

  /** Whoever watches `f` will be told of the exit. */
  predicate Heard(w: E.State, f: E.Fd) {
    !w.run.Broken? && E.Watched(w, f) ==>
      && f in w.files
      && (w.files[f] in w.exited ==>
            E.IsReady(w, f) || E.Ready(f) in E.Live(E.Pending(w)) || E.Wake in E.Pending(w))
  }

  lemma TrackedIsHeard(w: E.State, f: E.Fd)
    requires E.Tracked(w)
    ensures Heard(w, f)
  {
    E.LiveIsAll(E.Pending(w));
  }

  /** No client of the shared waiter, this strategy included, loses a wake-up, even if a
      pidfd is closed twice: a number closed a second time is spent or has left the map. */
  lemma NobodyLosesAWakeup(t: seq<Step>, f: E.Fd)
    requires CanRun(Init(), t) && OrderlyRun(Init(), t) && QuietLaunches(Init(), t)
    ensures Heard(Exec(Init(), t).w, f)
  {
    WakeRun(Init(), t);
    TrackedIsHeard(Exec(Init(), t).w, f);
  }
}

/** The strategy object of execution/fork.go; each method is tied to the steps of
    `ForkOwnership`. Every method may be called again at any time. */
module ForkStrategy {
  import opened Text
  import opened ForkOwnership
  import E = Epoll
  import EpollWaiter

  /** What reading the pid file and opening the process handle gives. */
  datatype Lookup =
    | NoPidFile
    | BadPidFile                 // unreadable, or not a decimal number
    | NoProcess(removed: bool)   // ESRCH; whether deleting the old pid file worked
    | OpenFailed
    | Found(fd: E.Fd, p: E.Proc)

  datatype Answer = NotRunning | Failed | Running(ch: E.Chan)

  class Strategy {
    var pidFd: E.Fd
    var quitCh: Option<E.Chan>
    const waiter: EpollWaiter.Waiter
    ghost var opening: bool
    ghost var goroutines: seq<Goroutine>
    ghost var closer: Closer
    ghost var launched: bool
    ghost var watched: bool
    ghost var held: set<E.Fd>
    ghost var closes: nat

    ghost function View(): State
      reads this, waiter
    {
      State(waiter.View(), pidFd, opening, quitCh, goroutines, closer, launched, watched, held, closes)
    }

    constructor (waiter: EpollWaiter.Waiter)
      ensures View() == State(old(waiter.View()), -1, false, None, [], Idle, false, false, {}, 0)
      ensures this.waiter == waiter
    {
      this.waiter := waiter;
      pidFd, quitCh := -1, None;
      opening, goroutines, closer, launched, watched, held, closes := false, [], Idle, false, false, {}, 0;
    }

    /** FindRunning. A number the kernel hands out is not open: that is what Launch asks for. */
    method FindRunning(lookup: Lookup, sysOk: bool) returns (r: Answer)
      requires lookup.Found? ==> Enabled(View(), Launch(lookup.fd, lookup.p)) && E.MutexFree(waiter.View())
      modifies this, waiter
      ensures !lookup.Found? ==> View() == old(View())
      ensures !lookup.Found? ==> r == if lookup in {NoPidFile, NoProcess(true)} then NotRunning else Failed
      ensures lookup.Found? ==> Launched(old(View()), View(), lookup.fd, lookup.p, sysOk, r)
      ensures lookup.Found? ==>
                && pidFd == lookup.fd
                && (r == Failed <==> lookup.fd in old(waiter.fdmap) || lookup.fd in old(waiter.interest) || !sysOk)
                && (r != Failed ==> r == Running(old(waiter.nextChan)) && quitCh == Some(old(waiter.nextChan))
                                    && waiter.fdmap == old(waiter.fdmap)[lookup.fd := old(waiter.nextChan)])
                && (r == Failed ==> quitCh == old(quitCh) && waiter.fdmap == old(waiter.fdmap))
    {
      match lookup
      case NoPidFile => return NotRunning;
      case BadPidFile => return Failed;
      case NoProcess(removed) => return if removed then NotRunning else Failed;
      case OpenFailed => return Failed;
      case Found(fd, p) => r := Obtain(fd, p, sysOk);
    }

    /** Start. It does not look at pidFd before the command overwrites it; `started` is
        None when the command, or opening its log files, failed. */
    method Start(started: Option<(E.Fd, E.Proc)>, sysOk: bool) returns (r: Answer)
      requires started.Some? ==> Enabled(View(), Launch(started.value.0, started.value.1))
      requires started.Some? ==> E.MutexFree(waiter.View())
      modifies this, waiter
      ensures started.None? ==> View() == old(View()) && r == Failed
      ensures started.Some? ==> Launched(old(View()), View(), started.value.0, started.value.1, sysOk, r)
      ensures started.Some? ==>
                && pidFd == started.value.0
                && (r == Failed <==> started.value.0 in old(waiter.fdmap) || started.value.0 in old(waiter.interest)
                                     || !sysOk)
                && (r != Failed ==> r == Running(old(waiter.nextChan)) && quitCh == Some(old(waiter.nextChan))
                                    && waiter.fdmap == old(waiter.fdmap)[started.value.0 := old(waiter.nextChan)])
                && (r == Failed ==> quitCh == old(quitCh) && waiter.fdmap == old(waiter.fdmap))
    {
      if started.None? {
        return Failed;
      }
      r := Obtain(started.value.0, started.value.1, sysOk);
    }

    /** pidFd is assigned, then watched. */
    method Obtain(fd: E.Fd, p: E.Proc, sysOk: bool) returns (r: Answer)
      requires Enabled(View(), Launch(fd, p)) && E.MutexFree(waiter.View())
      modifies this, waiter
      ensures Launched(old(View()), View(), fd, p, sysOk, r)
      ensures pidFd == fd
      ensures r == Failed <==> fd in old(waiter.fdmap) || fd in old(waiter.interest) || !sysOk
      ensures r != Failed ==> r == Running(old(waiter.nextChan)) && quitCh == Some(old(waiter.nextChan))
                              && waiter.fdmap == old(waiter.fdmap)[fd := old(waiter.nextChan)]
      ensures r == Failed ==> quitCh == old(quitCh) && waiter.fdmap == old(waiter.fdmap)
    {
      ghost var s := View();
      waiter.PidfdOpen(fd, p);
      pidFd := fd;
      opening, launched, watched, held, closer, closes := true, true, false, held + {fd}, Idle, 0;
      ghost var s1 := View();
      assert s1 == Apply(s, Launch(fd, p));
      var ok := Watch(sysOk);
      RunCons(s1, Step.Watch(sysOk), []);
      RunCons(s, Launch(fd, p), [Step.Watch(sysOk)]);
      r := if ok then Running(quitCh.value) else Failed;
    }

    /** Adds the pidfd to the waiter and starts the goroutine that closes it. */
    method Watch(sysOk: bool) returns (ok: bool)
      requires Enabled(View(), Step.Watch(sysOk))
      modifies this`opening, this`quitCh, this`watched, this`goroutines, waiter
      ensures View() == Apply(old(View()), Step.Watch(sysOk))
      ensures ok == E.AddResult(old(waiter.View()), pidFd, sysOk).Some?
      ensures ok ==> quitCh == E.AddResult(old(waiter.View()), pidFd, sysOk)
      ensures ok <==> pidFd !in old(waiter.fdmap) && pidFd !in old(waiter.interest)
                      && pidFd in old(waiter.files) && sysOk
      ensures quitCh == if ok then Some(old(waiter.nextChan)) else old(quitCh)
      ensures waiter.fdmap == if ok then old(waiter.fdmap)[pidFd := old(waiter.nextChan)] else old(waiter.fdmap)
    {
      var done := waiter.Add(pidFd, sysOk);
      opening, watched := false, done.Some?;
      if done.None? {
        return false;
      }
      quitCh := done;
      goroutines := goroutines + [Spawned];
      return true;
    }

    /** Goroutine `i` evaluates s.quitCh, without the mutex. */
    method Read(ghost i: nat)
      requires Enabled(View(), Step.Read(i))
      modifies this`goroutines
      ensures View() == Apply(old(View()), Step.Read(i))
    {
      goroutines := goroutines[i := Blocked(quitCh.value)];
    }

    /** The rest of goroutine `i` once its channel is closed. It closes the current pidFd;
        closing -1 is an error that is only logged. */
    method Reap(ghost i: nat)
      requires Enabled(View(), Step.Reap(i))
      modifies this`pidFd, this`goroutines, this`held, this`closes, waiter
      ensures View() == Apply(old(View()), Step.Reap(i))
      ensures pidFd == -1 && waiter.fdmap == old(waiter.fdmap)
      ensures waiter.files == if old(pidFd) == -1 then old(waiter.files) else old(waiter.files) - {old(pidFd)}
    {
      goroutines := goroutines[i := Reaped];
      if pidFd != -1 {
        var _ := waiter.CloseDescriptor(pidFd);
        closes, held := closes + 1, held - {pidFd};
      }
      pidFd := -1;
    }

    /** The second half of Close, whatever Remove returned. */
    method CloseHeld() returns (ok: bool)
      requires Enabled(View(), CloseEnd)
      modifies this`closer, this`held, this`closes, waiter
      ensures View() == Apply(old(View()), CloseEnd) && ok == (pidFd in old(waiter.files))
      ensures waiter.files == old(waiter.files) - {pidFd} && waiter.fdmap == old(waiter.fdmap)
    {
      ok := waiter.CloseDescriptor(pidFd);
      closes, held, closer := closes + 1, held - {pidFd}, Finished(closer.ok);
    }

    method IsRunning() returns (r: bool)
      ensures r == (pidFd != -1)
    {
      return pidFd != -1;
    }

    method Close(sysOk: bool) returns (ok: bool)
      requires Enabled(View(), CloseBegin(sysOk))
      modifies this, waiter
      ensures var t := if old(pidFd) == -1 then [CloseBegin(sysOk)] else [CloseBegin(sysOk), CloseEnd];
              CanRun(old(View()), t) && View() == Exec(old(View()), t)
      ensures pidFd == old(pidFd)
      ensures ok <==> pidFd == -1 || (E.RemoveOk(old(waiter.View()), pidFd, sysOk) && pidFd in old(waiter.files))
      ensures pidFd != -1 ==> waiter.files == old(waiter.files) - {pidFd}
      ensures pidFd != -1 && pidFd in old(waiter.fdmap) && pidFd in old(waiter.interest) && sysOk ==>
                waiter.fdmap == old(waiter.fdmap) - {pidFd}
    {
      ghost var s := View();
      ok := true;
      if pidFd == -1 {
        closer := Skipped;
        RunCons(s, CloseBegin(sysOk), []);
        return;
      }
      var removed := waiter.Remove(pidFd, sysOk);
      closer := Removing(removed);
      ghost var s1 := View();
      assert s1 == Apply(s, CloseBegin(sysOk));
      var closed := CloseHeld();
      RunCons(s1, CloseEnd, []);
      RunCons(s, CloseBegin(sysOk), [CloseEnd]);
      return removed && closed;
    }
  }

  /** From `s` to `u` by obtaining pidfd `fd` and watching it. */
  ghost predicate Launched(s: State, u: State, fd: E.Fd, p: E.Proc, sysOk: bool, r: Answer) {
    var t := [Launch(fd, p), Step.Watch(sysOk)];
    && CanRun(s, t) && u == Exec(s, t)
    && var added := E.AddResult(E.Apply(s.w, E.Open(fd, p)), fd, sysOk);
       r == if added.Some? then Running(added.value) else Failed
  }
}

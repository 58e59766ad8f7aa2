/** The waiter of pidfd/epoll.go in its own form: an object whose map is updated in
    place under a mutex. Every method is tied to the step system of `Epoll`. */
module EpollWaiter {
  import opened Text
  import opened Epoll

  class Waiter {
    var fdmap: map<Fd, Chan>
    var events: array<Event>          // the buffer `run` passes to epoll_wait
    // the channels made so far, and the kernel
    var nextChan: Chan
    var closed: multiset<Chan>
    var files: map<Fd, Proc>
    var exited: set<Proc>
    var interest: map<Fd, bool>
    var signalled: bool
    // where the run loop is, and history
    ghost var run: Phase
    ghost var owner: map<Chan, Proc>
    ghost var stale: set<Chan>

    ghost function View(): State
      reads this
    {
      State(fdmap, nextChan, closed, files, exited, interest, signalled, run, owner, stale)
    }

    constructor ()
      ensures View() == Init() && events.Length == 8 && fresh(events)
      ensures fdmap == map[] && closed == multiset{} && files == map[] && interest == map[] && !signalled
    {
      fdmap, nextChan, closed := map[], 0, multiset{};
      files, exited, interest, signalled := map[], {}, map[], false;
      run, owner, stale := Waiting, map[], {};
      events := new Event[BUFFER_SIZE](_ => Wake);
    }

    /** epoll_ctl(EPOLL_CTL_ADD) with EPOLLIN | EPOLLONESHOT. */
    method EpollCtlAdd(fd: Fd, sysOk: bool) returns (ok: bool)
      modifies this`interest
      ensures ok == (sysOk && fd in files && fd !in old(interest))
      ensures interest == if ok then old(interest)[fd := true] else old(interest)
    {
      ok := sysOk && fd in files && fd !in interest;
      if ok {
        interest := interest[fd := true];
      }
    }

    /** epoll_ctl(EPOLL_CTL_DEL). */
    method EpollCtlDel(fd: Fd, sysOk: bool) returns (ok: bool)
      modifies this`interest
      ensures ok == (sysOk && fd in old(interest))
      ensures interest == if ok then old(interest) - {fd} else old(interest)
    {
      ok := sysOk && fd in interest;
      if ok {
        interest := interest - {fd};
      }
    }

    /** The kernel hands out descriptor `fd` for process `p`. */
    method PidfdOpen(fd: Fd, p: Proc)
      requires fd !in files
      modifies this`files
      ensures View() == Apply(old(View()), Step.Open(fd, p))
    {
      files := files[fd := p];
    }

    /** close(2), which fails on a number that is not open. */
    method CloseDescriptor(fd: Fd) returns (ok: bool)
      modifies this`files, this`interest
      ensures ok == (fd in old(files))
      ensures View() == if ok then Apply(old(View()), Step.CloseFd(fd)) else old(View())
      ensures files == old(files) - {fd} && (ok ==> interest == old(interest) - {fd})
    {
      ok := fd in files;
      if ok {
        files := files - {fd};
        interest := interest - {fd};
      }
    }

    method Add(pidfd: Fd, sysOk: bool) returns (r: Option<Chan>)
      requires MutexFree(View())
      modifies this`fdmap, this`nextChan, this`interest, this`owner, this`stale
      ensures View() == Apply(old(View()), Step.Add(pidfd, sysOk))
      ensures r == AddResult(old(View()), pidfd, sysOk)
      ensures r == if pidfd !in old(fdmap) && sysOk && pidfd in files && pidfd !in old(interest)
                   then Some(old(nextChan)) else None
      ensures fdmap == if r.Some? then old(fdmap)[pidfd := r.value] else old(fdmap)
      ensures interest == if r.Some? then old(interest)[pidfd := true] else old(interest)
    {
      if pidfd in fdmap {
        return None;
      }
      r := Register(pidfd, sysOk);
    }

    /** The entry is made first and taken back if epoll_ctl fails. */
    method Register(pidfd: Fd, sysOk: bool) returns (r: Option<Chan>)
      requires pidfd !in fdmap
      modifies this`fdmap, this`nextChan, this`interest, this`owner, this`stale
      ensures nextChan == old(nextChan) + 1
      ensures r == if sysOk && pidfd in files && pidfd !in old(interest) then Some(old(nextChan)) else None
      ensures fdmap == if r.Some? then old(fdmap)[pidfd := r.value] else old(fdmap)
      ensures interest == if r.Some? then old(interest)[pidfd := true] else old(interest)
      ensures owner == if r.Some? then old(owner)[r.value := files[pidfd]] else old(owner)
      ensures stale == if r.Some? && Ready(pidfd) in Live(Pending(old(View()))) then old(stale) + {r.value}
                       else old(stale)
    {
      var ch := nextChan;
      nextChan := nextChan + 1;
      fdmap := fdmap[pidfd := ch];
      var ok := EpollCtlAdd(pidfd, sysOk);
      if !ok {
        TakenBack(old(fdmap), pidfd, ch);
        fdmap := fdmap - {pidfd};
        return None;
      }
      owner := owner[ch := files[pidfd]];
      stale := if Ready(pidfd) in Live(Pending(old(View()))) then stale + {ch} else stale;
      return Some(ch);
    }

    method Remove(pidfd: Fd, sysOk: bool) returns (ok: bool)
      requires MutexFree(View())
      modifies this`fdmap, this`interest
      ensures View() == Apply(old(View()), Step.Remove(pidfd, sysOk))
      ensures ok == RemoveOk(old(View()), pidfd, sysOk)
      ensures ok <==> pidfd in old(fdmap) && pidfd in old(interest) && sysOk
      ensures fdmap == if ok then old(fdmap) - {pidfd} else old(fdmap)
      ensures interest == if ok then old(interest) - {pidfd} else old(interest)
      ensures events == old(events)
    {
      if pidfd !in fdmap {
        return false;
      }
      ok := EpollCtlDel(pidfd, sysOk);
      if !ok {
        return false;
      }
      fdmap := fdmap - {pidfd};
    }

    /** One iteration of `run` after epoll_wait returned `ready` events: take the mutex,
        go through the buffer, release the mutex; or leave the loop still holding it. */
    method HandleBatch(ready: nat) returns (quit: bool)
      requires ready <= events.Length && run == Returned(events[..ready])
      modifies this
      ensures CanRun(old(View()), BatchSteps(old(View())))
      ensures View() == Exec(old(View()), BatchSteps(old(View())))
      ensures quit == run.Broken? && (!quit ==> run == Waiting)
      ensures quit == (Wake in old(events[..ready]))
    {
      run := Locked(events[..ready]);
      ghost var start := View();
      assert start == Apply(old(View()), Lock);
      LockedStepsRun(start);
      RunCons(old(View()), Lock, LockedSteps(start));
      quit := Sweep(ready);
      if quit {
        return true;
      }
      UnfoldFinish(View());
      run := Waiting;
      return false;
    }

    /** The loop over the buffer. */
    method Sweep(ready: nat) returns (quit: bool)
      requires ready <= events.Length && run == Locked(events[..ready])
      modifies this
      ensures quit == (Wake in old(events[..ready]))
      ensures if quit then run.Broken? && View() == Finish(old(View()))
              else run == Locked([]) && Finish(View()) == Finish(old(View()))
    {
      ghost var start := View();
      for i := 0 to ready
        invariant events == old(events) && events[..] == old(events[..])
        invariant run == Locked(events[i..ready])
        invariant Finish(View()) == Finish(start)
        invariant Wake !in events[..i]
      {
        var event := events[i];
        assert events[i..ready] == [event] + events[i + 1..ready];
        assert events[..i + 1] == events[..i] + [event];
        UnfoldFinish(View());
        quit := HandleEvent(event, events[i + 1..ready]);
        if quit {
          assert event in events[..ready];
          return true;
        }
      }
      return false;
    }

    /** The body of the loop over the buffer. */
    method HandleEvent(event: Event, ghost rest: seq<Event>) returns (quit: bool)
      requires run == Locked([event] + rest)
      modifies this`run, this`closed, this`interest
      ensures quit == event.Wake?
      ensures View() == AfterEvent(old(View()))
      ensures event.Ready? && event.fd in fdmap ==>
                closed == old(closed) + multiset{fdmap[event.fd]} && interest == old(interest) - {event.fd}
      ensures event.Wake? || event.fd !in fdmap ==> closed == old(closed) && interest == old(interest)
    {
      ReadEvent(View(), event, rest);
      if event == Wake {
        run := Broken;
        return true;
      }
      run := Locked(rest);
      if event.fd in fdmap {
        CloseAndDisarm(event.fd);
      }
      return false;
    }

    /** close(ch), then EPOLL_CTL_DEL whose error is ignored. */
    method CloseAndDisarm(fd: Fd)
      requires fd in fdmap
      modifies this`closed, this`interest
      ensures closed == old(closed) + multiset{fdmap[fd]} && interest == old(interest) - {fd}
    {
      closed := closed + multiset{fdmap[fd]};
      var _ := EpollCtlDel(fd, true);
    }
  }

  lemma TakenBack(m: map<Fd, Chan>, f: Fd, ch: Chan)
    requires f !in m
    ensures m[f := ch] - {f} == m
  {
  }

  /** Process, and Del after a channel was closed. */
  function AfterEvent(s: State): (t: State)
    requires s.run.Locked? && s.run.rest != []
    ensures t.run == if s.run.rest[0].Wake? then Broken else Locked(s.run.rest[1..])
  {
    var t := Apply(s, Process);
    if t.run.Deleting? then Apply(t, Del) else t
  }

  lemma ReadEvent(s: State, e: Event, rest: seq<Event>)
    requires s.run == Locked([e] + rest)
    ensures AfterEvent(s) == if e.Wake? then s.(run := Broken)
                             else if e.fd !in s.fdmap then s.(run := Locked(rest))
                             else s.(closed := s.closed + multiset{s.fdmap[e.fd]},
                                     interest := s.interest - {e.fd}, run := Locked(rest))
  {
    assert s.run.rest[1..] == rest;
  }

  /** The steps the loop body takes while it holds the mutex. */
  function LockedSteps(s: State): seq<Step>
    requires s.run.Locked?
    decreases |s.run.rest|
  {
    if s.run.rest == [] then [Unlock]
    else if s.run.rest[0].Wake? then [Process]
    else if s.run.rest[0].fd in s.fdmap then
      [Process, Del] + LockedSteps(Apply(Apply(s, Process), Del))
    else [Process] + LockedSteps(Apply(s, Process))
  }

  function BatchSteps(s: State): seq<Step>
    requires s.run.Returned?
  {
    [Lock] + LockedSteps(Apply(s, Lock))
  }

  lemma {:induction false} LockedStepsRun(s: State)
    requires s.run.Locked?
    ensures CanRun(s, LockedSteps(s))
    decreases |s.run.rest|
  {
    var t := LockedSteps(s);
    if s.run.rest == [] || s.run.rest[0].Wake? {
      assert t[1..] == [];
    } else {
      var s1 := Apply(s, Process);
      if s.run.rest[0].fd in s.fdmap {
        var s2 := Apply(s1, Del);
        LockedStepsRun(s2);
        RunCons(s1, Del, LockedSteps(s2));
        RunCons(s, Process, [Del] + LockedSteps(s2));
        assert t == [Process] + ([Del] + LockedSteps(s2));
      } else {
        LockedStepsRun(s1);
        RunCons(s, Process, LockedSteps(s1));
      }
    }
  }

  /** The state in which the loop body leaves the mutex-protected part. */
  ghost function Finish(s: State): State
    requires s.run.Locked?
  {
    LockedStepsRun(s);
    Exec(s, LockedSteps(s))
  }

  lemma UnfoldFinish(s: State)
    requires s.run.Locked?
    ensures Finish(s) == if s.run.rest == [] then Apply(s, Unlock)
                         else if s.run.rest[0].Wake? then AfterEvent(s)
                         else Finish(AfterEvent(s))
  {
    LockedStepsRun(s);
    if s.run.rest == [] {
      RunCons(s, Unlock, []);
    } else {
      var s1 := Apply(s, Process);
      if s.run.rest[0].Wake? {
        RunCons(s, Process, []);
        assert AfterEvent(s) == s1 && LockedSteps(s) == [Process] + [];
      } else if s.run.rest[0].fd in s.fdmap {
        var s2 := Apply(s1, Del);
        LockedStepsRun(s2);
        RunCons(s1, Del, LockedSteps(s2));
        RunCons(s, Process, [Del] + LockedSteps(s2));
        assert LockedSteps(s) == [Process] + ([Del] + LockedSteps(s2));
      } else {
        LockedStepsRun(s1);
        RunCons(s, Process, LockedSteps(s1));
      }
    }
  }
}

/** The pidfd waiter of pidfd/epoll.go as a step system: the kernel, the `run` loop,
    the clients calling Add and Remove, and whoever opens and closes file descriptors.

    The kernel's interest list is keyed by fd number. A step is one indivisible
    action; the body of `run` between Lock and Unlock is split at its system calls,
    because processes exit and descriptors are opened and closed while it runs. */
module Epoll {
  import opened Text

  type Fd = int
  type Proc = nat
  type Chan = nat

  /** What `epoll_wait` reports: the eventfd, or a readable pidfd. */
  datatype Event = Wake | Ready(fd: Fd)

  datatype Phase =
    | Waiting                              // inside epoll_wait
    | Returned(batch: seq<Event>)          // epoll_wait returned, mu not yet taken
    | Locked(rest: seq<Event>)             // mu held, `rest` not yet looked at
    | Deleting(fd: Fd, rest: seq<Event>)   // channel of fd closed, EPOLL_CTL_DEL to come
    | Broken                               // left the loop; mu is never released

  datatype State = State(
    fdmap: map<Fd, Chan>,
    nextChan: Chan,            // channels below this one have been made
    closed: multiset<Chan>,    // how often each channel was closed
    files: map<Fd, Proc>,      // open pidfds
    exited: set<Proc>,
    interest: map<Fd, bool>,   // registered fds; true while armed (EPOLLONESHOT)
    signalled: bool,           // eventfd written
    run: Phase,
    owner: map<Chan, Proc>,    // history: the process a channel was registered for
    stale: set<Chan>)          // history: registered while the fd number was pending

  datatype Step =
    | Exit(p: Proc)
    | Open(fd: Fd, p: Proc)
    | CloseFd(fd: Fd)
    | Add(fd: Fd, sysOk: bool)      // sysOk: no resource failure in epoll_ctl
    | Remove(fd: Fd, sysOk: bool)
    | Signal                        // Close writes the eventfd
    | Wait(batch: seq<Event>)
    | Lock
    | Process
    | Del
    | Unlock

  const BUFFER_SIZE := 8

  function Init(): State {
    State(map[], 0, multiset{}, map[], {}, map[], false, Waiting, map[], {})
  }

  predicate MutexFree(s: State) { s.run.Waiting? || s.run.Returned? }

  /** Reported by the last epoll_wait and not yet looked at. */
  function Pending(s: State): seq<Event> {
    match s.run
    case Returned(b) => b
    case Locked(r) => r
    case Deleting(_, r) => r
    case _ => []
  }

  /** The part of a batch that will be acted on: everything before the wake-up event. */
  function Live(b: seq<Event>): (r: seq<Event>)
    ensures forall e :: e in r ==> e in b && e.Ready?
  {
    if b == [] || b[0].Wake? then [] else [b[0]] + Live(b[1..])
  }

  predicate Armed(s: State, f: Fd) { f in s.interest && s.interest[f] }

  predicate IsReady(s: State, f: Fd) {
    Armed(s, f) && f in s.files && s.files[f] in s.exited
  }

  predicate Distinct(b: seq<Event>) {
    forall i, j :: 0 <= i < j < |b| ==> b[i] != b[j]
  }

  predicate Reportable(s: State, b: seq<Event>) {
    0 < |b| <= BUFFER_SIZE && Distinct(b)
    && forall e :: e in b ==> if e.Wake? then s.signalled else IsReady(s, e.fd)
  }

  predicate Enabled(s: State, a: Step) {
    match a
    case Exit(_) => true
    case Open(f, _) => f !in s.files
    case CloseFd(f) => f in s.files
    case Add(_, _) => MutexFree(s)
    case Remove(_, _) => MutexFree(s)
    case Signal => true
    case Wait(b) => s.run.Waiting? && Reportable(s, b)
    case Lock => s.run.Returned?
    case Process => s.run.Locked? && s.run.rest != []
    case Del => s.run.Deleting?
    case Unlock => s.run.Locked? && s.run.rest == []
  }

  /** The channel Add returns, None for an error. */
  function AddResult(s: State, f: Fd, sysOk: bool): Option<Chan> {
    if f in s.fdmap || !sysOk || f !in s.files || f in s.interest then None
    else Some(s.nextChan)
  }

  predicate RemoveOk(s: State, f: Fd, sysOk: bool) {
    f in s.fdmap && sysOk && f in s.interest
  }

  function Apply(s: State, a: Step): State
    requires Enabled(s, a)
  {
    match a
    case Exit(p) => s.(exited := s.exited + {p})
    case Open(f, p) => s.(files := s.files[f := p])
    case CloseFd(f) => s.(files := s.files - {f}, interest := s.interest - {f})
    case Add(f, sysOk) =>
      if f in s.fdmap then s
      else if AddResult(s, f, sysOk).None? then s.(nextChan := s.nextChan + 1)
      else s.(fdmap := s.fdmap[f := s.nextChan],
              nextChan := s.nextChan + 1,
              interest := s.interest[f := true],
              owner := s.owner[s.nextChan := s.files[f]],
              stale := if Ready(f) in Live(Pending(s)) then s.stale + {s.nextChan} else s.stale)
    case Remove(f, sysOk) =>
      if RemoveOk(s, f, sysOk) then s.(fdmap := s.fdmap - {f}, interest := s.interest - {f})
      else s
    case Signal => s.(signalled := true)
    case Wait(b) =>
      s.(interest := map f | f in s.interest :: s.interest[f] && Ready(f) !in b,
         run := Returned(b))
    case Lock => s.(run := Locked(s.run.batch))
    case Process =>
      var e, rest := s.run.rest[0], s.run.rest[1..];
      if e.Wake? then s.(run := Broken)
      else if e.fd in s.fdmap then
        s.(closed := s.closed + multiset{s.fdmap[e.fd]}, run := Deleting(e.fd, rest))
      else s.(run := Locked(rest))
    case Del => s.(interest := s.interest - {s.run.fd}, run := Locked(s.run.rest))
    case Unlock => s.(run := Waiting)
  }

  // ---------- runs ----------

  predicate CanRun(s: State, t: seq<Step>)
    decreases t
  {
    t == [] || (Enabled(s, t[0]) && CanRun(Apply(s, t[0]), t[1..]))
  }

  function Exec(s: State, t: seq<Step>): State
    requires CanRun(s, t)
    decreases t
  {
    if t == [] then s else Exec(Apply(s, t[0]), t[1..])
  }

  lemma {:induction false} RunCons(s: State, a: Step, t: seq<Step>)
    requires Enabled(s, a) && CanRun(Apply(s, a), t)
    ensures CanRun(s, [a] + t) && Exec(s, [a] + t) == Exec(Apply(s, a), t)
  {
    assert ([a] + t)[1..] == t;
  }

  lemma {:induction false} RunConcat(s: State, t: seq<Step>, u: seq<Step>)
    requires CanRun(s, t) && CanRun(Exec(s, t), u)
    ensures CanRun(s, t + u) && Exec(s, t + u) == Exec(Exec(s, t), u)
    decreases t
  {
    if t == [] {
      assert t + u == u;
    } else {
      RunConcat(Apply(s, t[0]), t[1..], u);
      RunCons(s, t[0], t[1..] + u);
      assert t + u == [t[0]] + (t[1..] + u);
    }
  }

  // ---------- what every interleaving keeps ----------

  predicate Registered(s: State, f: Fd) {
    f in s.files && f in s.fdmap
    && (s.fdmap[f] in s.closed ==> s.run.Deleting? && s.run.fd == f)
  }

  /** Holds whatever the clients do. The line about the interest list says that a
      registered fd maps to an open channel, except between the two system calls. */
  ghost predicate Safe(s: State) {
    && (forall f :: f in s.fdmap ==> s.fdmap[f] < s.nextChan)
    && (forall c :: c in s.closed ==> c < s.nextChan)
    && (forall c :: c in s.stale ==> c < s.nextChan)
    && (forall f, g :: f in s.fdmap && g in s.fdmap && s.fdmap[f] == s.fdmap[g] ==> f == g)
    && (forall c :: s.closed[c] <= 1)
    && (forall f :: f in s.interest ==> Registered(s, f))
    && Distinct(Pending(s))
    && (forall f :: Ready(f) in Pending(s) && f in s.fdmap ==> s.fdmap[f] !in s.closed)
    && (s.run.Deleting? ==> s.run.fd in s.fdmap && s.fdmap[s.run.fd] in s.closed)
  }

  lemma SafeStep(s: State, a: Step)
    requires Safe(s) && Enabled(s, a)
    ensures Safe(Apply(s, a))
  {
    match a
    case Add(f, sysOk) => SafeAdd(s, f, sysOk);
    case Remove(f, sysOk) => SafeRemove(s, f, sysOk);
    case CloseFd(f) => SafeCloseFd(s, f);
    case Wait(b) => SafeWait(s, b);
    case Process => SafeProcess(s);
    case Del => SafeDel(s);
    case Lock => SafeLock(s);
    case Unlock => SafeUnlock(s);
    case _ => SafeKernel(s, a);
  }

  lemma SafeKernel(s: State, a: Step)
    requires Safe(s) && Enabled(s, a) && (a.Exit? || a.Open? || a.Signal?)
    ensures Safe(Apply(s, a))
  {
  }

  lemma SafeLock(s: State)
    requires Safe(s) && Enabled(s, Lock)
    ensures Safe(Apply(s, Lock))
  {
  }

  lemma SafeUnlock(s: State)
    requires Safe(s) && Enabled(s, Unlock)
    ensures Safe(Apply(s, Unlock))
  {
  }

  lemma SafeAdd(s: State, f: Fd, sysOk: bool)
    requires Safe(s) && Enabled(s, Add(f, sysOk))
    ensures Safe(Apply(s, Add(f, sysOk)))
  {
  }

  lemma SafeRemove(s: State, f: Fd, sysOk: bool)
    requires Safe(s) && Enabled(s, Remove(f, sysOk))
    ensures Safe(Apply(s, Remove(f, sysOk)))
  {
  }

  lemma SafeCloseFd(s: State, f: Fd)
    requires Safe(s) && Enabled(s, CloseFd(f))
    ensures Safe(Apply(s, CloseFd(f)))
  {
  }

  lemma SafeWait(s: State, b: seq<Event>)
    requires Safe(s) && Enabled(s, Wait(b))
    ensures Safe(Apply(s, Wait(b)))
  {
    forall f | Ready(f) in b ensures f in s.fdmap && s.fdmap[f] !in s.closed {
      assert f in s.interest;
      assert Registered(s, f);
    }
  }

  lemma SafeProcess(s: State)
    requires Safe(s) && Enabled(s, Process)
    ensures Safe(Apply(s, Process))
  {
    var e, rest := s.run.rest[0], s.run.rest[1..];
    PendingTail(s.run.rest);
    if e.Wake? {
      SafeRephase(s, Broken, []);
    } else if e.fd in s.fdmap {
      SafeProcessClose(s, e.fd, rest);
    } else {
      SafeRephase(s, Locked(rest), rest);
    }
  }

  lemma SafeRephase(s: State, run: Phase, rest: seq<Event>)
    requires Safe(s) && s.run.Locked?
    requires (run == Broken && rest == []) || run == Locked(rest)
    requires Distinct(rest) && forall e :: e in rest ==> e in s.run.rest
    ensures Safe(s.(run := run))
  {
    var t := s.(run := run);
    forall g | g in t.interest ensures Registered(t, g) {
      assert Registered(s, g);
    }
    forall f | Ready(f) in Pending(t) && f in t.fdmap ensures t.fdmap[f] !in t.closed {
      assert Ready(f) in Pending(s);
    }
  }

  lemma PendingTail(b: seq<Event>)
    requires b != [] && Distinct(b)
    ensures Distinct(b[1..])
    ensures b[0] in b
    ensures forall e :: e in b[1..] ==> e in b && e != b[0]
  {
  }

  lemma SafeProcessClose(s: State, f: Fd, rest: seq<Event>)
    requires Safe(s) && s.run.Locked? && f in s.fdmap && Distinct(rest)
    requires Ready(f) in s.run.rest && forall e :: e in rest ==> e in s.run.rest && e != Ready(f)
    ensures Safe(s.(closed := s.closed + multiset{s.fdmap[f]}, run := Deleting(f, rest)))
  {
    var t := s.(closed := s.closed + multiset{s.fdmap[f]}, run := Deleting(f, rest));
    assert s.fdmap[f] !in s.closed;
    assert forall c :: c in t.closed <==> c in s.closed || c == s.fdmap[f];
    forall g | Ready(g) in rest && g in s.fdmap ensures s.fdmap[g] !in t.closed {
      assert Ready(g) in Pending(s) && g != f;
    }
    forall g | g in t.interest ensures Registered(t, g) {
      assert Registered(s, g);
    }
  }

  lemma SafeDel(s: State)
    requires Safe(s) && Enabled(s, Del)
    ensures Safe(Apply(s, Del))
  {
  }

  /** No channel is closed twice, over all runs. */
  lemma {:induction false} SafeRun(s: State, t: seq<Step>)
    requires Safe(s) && CanRun(s, t)
    ensures Safe(Exec(s, t))
    decreases t
  {
    if t != [] {
      SafeStep(s, t[0]);
      SafeRun(Apply(s, t[0]), t[1..]);
    }
  }

  // ---------- a descriptor number whose channel has closed ----------

  predicate Spent(s: State, f: Fd) { f in s.fdmap && s.fdmap[f] in s.closed }

  lemma SpentStep(s: State, f: Fd, a: Step)
    requires Spent(s, f) && Enabled(s, a)
    requires s.nextChan !in s.closed && (f in s.interest ==> Registered(s, f))
    ensures Spent(Apply(s, a), f) && Apply(s, a).fdmap[f] == s.fdmap[f]
  {
  }

  /** Once its channel has closed, an fd number keeps its map entry for ever, and
      whenever the mutex is free it is out of the interest list: Add and Remove of
      that number fail in every later state. */
  lemma {:induction false} SpentForever(s: State, f: Fd, t: seq<Step>, sysOk: bool)
    requires Safe(s) && Spent(s, f) && CanRun(s, t)
    ensures var u := Exec(s, t);
            && Spent(u, f) && u.fdmap[f] == s.fdmap[f]
            && (MutexFree(u) ==> f !in u.interest)
            && (MutexFree(u) ==> AddResult(u, f, sysOk).None? && !RemoveOk(u, f, sysOk))
    decreases t
  {
    assert f in s.interest ==> Registered(s, f);
    if t != [] {
      SafeStep(s, t[0]);
      SpentStep(s, f, t[0]);
      SpentForever(Apply(s, t[0]), f, t[1..], sysOk);
    }
  }

  /** Conversely, a number that is not spent can be watched (again). */
  lemma UnspentCanBeAdded(s: State, f: Fd, p: Proc) returns (t: seq<Step>)
    requires Safe(s) && Tracked(s) && MutexFree(s) && !Spent(s, f)
    ensures CanRun(s, t) && MutexFree(Exec(s, t))
    ensures AddResult(Exec(s, t), f, true).Some?
  {
    if f in s.fdmap {
      assert Watched(s, f) && Covered(s, f);
      t := [Remove(f, true)];
    } else if f !in s.files {
      t := [Open(f, p)];
    } else {
      t := [];
    }
    if t != [] {
      assert t[1..] == [];
      assert Exec(s, t) == Apply(s, t[0]);
    } else {
      assert f in s.interest ==> Registered(s, f);
    }
  }

  /** The exact condition: Add of `f` can succeed in some later state iff `f` is not spent. */
  lemma WatchableIffUnspent(s: State, f: Fd)
    requires Safe(s) && Tracked(s) && MutexFree(s)
    ensures (exists t: seq<Step> :: CanRun(s, t) && MutexFree(Exec(s, t))
                                    && AddResult(Exec(s, t), f, true).Some?)
            <==> !Spent(s, f)
  {
    if Spent(s, f) {
      forall t: seq<Step> | CanRun(s, t) && MutexFree(Exec(s, t))
        ensures AddResult(Exec(s, t), f, true).None?
      {
        SpentForever(s, f, t, true);
      }
    } else {
      var t := UnspentCanBeAdded(s, f, 0);
    }
  }

  /** An entry whose fd is out of the interest list. */
  predicate Stuck(s: State, f: Fd) { f in s.fdmap && f !in s.interest }

  lemma StuckStep(s: State, f: Fd, a: Step)
    requires Stuck(s, f) && Enabled(s, a)
    ensures Stuck(Apply(s, a), f) && Apply(s, a).fdmap[f] == s.fdmap[f]
  {
  }

  /** Such an entry stays: neither Add nor Remove of the number ever succeeds. */
  lemma {:induction false} StuckForever(s: State, f: Fd, t: seq<Step>, sysOk: bool)
    requires Stuck(s, f) && CanRun(s, t)
    ensures var u := Exec(s, t);
            && Stuck(u, f) && u.fdmap[f] == s.fdmap[f]
            && AddResult(u, f, sysOk).None? && !RemoveOk(u, f, sysOk)
    decreases t
  {
    if t != [] {
      StuckStep(s, f, t[0]);
      StuckForever(Apply(s, t[0]), f, t[1..], sysOk);
    }
  }

  /** If moreover the loop will not come to an event of it, its channel is never closed. */
  predicate Deaf(s: State, f: Fd) { Stuck(s, f) && s.fdmap[f] !in s.closed && Ready(f) !in Live(Pending(s)) }

  lemma DeafStep(s: State, f: Fd, a: Step)
    requires Safe(s) && Deaf(s, f) && Enabled(s, a)
    ensures Deaf(Apply(s, a), f)
  {
    StuckStep(s, f, a);
    match a
    case Process => DeafProcess(s, f);
    case Wait(b) => assert Ready(f) in b ==> IsReady(s, f);
    case _ =>
  }

  lemma DeafProcess(s: State, f: Fd)
    requires Deaf(s, f) && Enabled(s, Process)
    requires forall g :: g in s.fdmap && s.fdmap[g] == s.fdmap[f] ==> g == f
    ensures s.fdmap[f] !in Apply(s, Process).closed && Ready(f) !in Live(Pending(Apply(s, Process)))
  {
    var e := s.run.rest[0];
    LiveHead(s.run.rest);
    ProcessFacts(s);
    assert e.Wake? || e.fd !in s.fdmap ==> Apply(s, Process).closed == s.closed;
  }

  lemma {:induction false} DeafForever(s: State, f: Fd, t: seq<Step>)
    requires Safe(s) && Deaf(s, f) && CanRun(s, t)
    ensures Deaf(Exec(s, t), f)
    decreases t
  {
    if t != [] {
      SafeStep(s, t[0]);
      DeafStep(s, f, t[0]);
      DeafForever(Apply(s, t[0]), f, t[1..]);
    }
  }

  /** Nothing that happens later closes the channel. */
  ghost predicate NeverClosed(s: State, c: Chan) {
    forall t: seq<Step> :: CanRun(s, t) ==> c !in Exec(s, t).closed
  }

  /** The exact condition for a client that closes a pidfd without Remove: the wake-up is lost
      for ever iff the loop will not come to an event of it in the current batch. */
  lemma CloseLosesExactly(s: State, f: Fd)
    requires Safe(s) && Watched(s, f) && f in s.files
    ensures NeverClosed(Apply(s, CloseFd(f)), s.fdmap[f]) <==> Ready(f) !in Live(Pending(s))
  {
    var u := Apply(s, CloseFd(f));
    SafeStep(s, CloseFd(f));
    if Ready(f) in Live(Pending(s)) {
      var t := LiveIsDelivered(u, f);
      assert CanRun(u, t) && s.fdmap[f] in Exec(u, t).closed;
    } else {
      forall t: seq<Step> | CanRun(u, t) ensures s.fdmap[f] !in Exec(u, t).closed {
        DeafForever(u, f, t);
        StuckForever(u, f, t, true);
      }
    }
  }

  // ---------- wake-ups ----------

  /** A client closes a pidfd only after Remove succeeded or after its channel closed. */
  predicate Disciplined(s: State, a: Step) {
    a.CloseFd? ==> a.fd !in s.fdmap || s.fdmap[a.fd] in s.closed
  }

  predicate DisciplinedRun(s: State, t: seq<Step>)
    requires CanRun(s, t)
    decreases t
  {
    t == [] || (Disciplined(s, t[0]) && DisciplinedRun(Apply(s, t[0]), t[1..]))
  }

  predicate Watched(s: State, f: Fd) { f in s.fdmap && s.fdmap[f] !in s.closed }

  /** Every watched fd is open and registered for the process that owns it, armed or
      pending; a pending watched fd whose process still runs was registered late; a
      closed channel's process has exited or the channel was registered late. */
  ghost predicate Tracked(s: State) {
    && (!s.run.Broken? ==> forall f :: Watched(s, f) ==> Covered(s, f))
    && (forall f :: Ready(f) in Live(Pending(s)) && Watched(s, f) ==> Justified(s, s.fdmap[f]))
    && (forall c :: c in s.closed ==> Justified(s, c))
  }

  predicate Covered(s: State, f: Fd)
    requires f in s.fdmap
  {
    && f in s.files && s.fdmap[f] in s.owner && s.owner[s.fdmap[f]] == s.files[f]
    && f in s.interest && (s.interest[f] || Ready(f) in Pending(s))
  }

  predicate Justified(s: State, c: Chan) {
    c in s.owner && (s.owner[c] in s.exited || c in s.stale)
  }

  lemma TrackedStep(s: State, a: Step)
    requires Safe(s) && Tracked(s) && Enabled(s, a) && Disciplined(s, a)
    ensures Tracked(Apply(s, a))
  {
    CoveredStep(s, a);
    JustifiedStep(s, a);
  }

  lemma CoveredStep(s: State, a: Step)
    requires Safe(s) && Tracked(s) && Enabled(s, a) && Disciplined(s, a)
    ensures var t := Apply(s, a);
            !t.run.Broken? ==> forall f :: Watched(t, f) ==> Covered(t, f)
  {
    var t := Apply(s, a);
    if !t.run.Broken? {
      forall f | Watched(t, f) ensures Covered(t, f) {
        if Watched(s, f) {
          assert Covered(s, f);
        }
        CoveredAt(s, a, f);
      }
    }
  }

  lemma CoveredAt(s: State, a: Step, f: Fd)
    requires Enabled(s, a) && Disciplined(s, a)
    requires Watched(s, f) ==> Covered(s, f)
    requires f in s.fdmap ==> s.fdmap[f] != s.nextChan
    requires s.run.Deleting? ==> Spent(s, s.run.fd)
    requires Watched(Apply(s, a), f) && !Apply(s, a).run.Broken?
    ensures Covered(Apply(s, a), f)
  {
    match a
    case Process => CoveredAtProcess(s, f);
    case Add(g, sysOk) => CoveredAtAdd(s, g, sysOk, f);
    case Wait(b) => CoveredAtWait(s, b, f);
    case _ =>
  }

  lemma CoveredAtProcess(s: State, f: Fd)
    requires Enabled(s, Process) && (Watched(s, f) ==> Covered(s, f))
    requires Watched(Apply(s, Process), f) && !Apply(s, Process).run.Broken?
    ensures Covered(Apply(s, Process), f)
  {
    assert s.run.rest == [s.run.rest[0]] + s.run.rest[1..];
  }

  lemma CoveredAtAdd(s: State, g: Fd, sysOk: bool, f: Fd)
    requires Enabled(s, Add(g, sysOk)) && (Watched(s, f) ==> Covered(s, f))
    requires f in s.fdmap ==> s.fdmap[f] != s.nextChan
    requires Watched(Apply(s, Add(g, sysOk)), f)
    ensures Covered(Apply(s, Add(g, sysOk)), f)
  {
  }

  lemma CoveredAtWait(s: State, b: seq<Event>, f: Fd)
    requires Enabled(s, Wait(b)) && (Watched(s, f) ==> Covered(s, f))
    requires Watched(Apply(s, Wait(b)), f)
    ensures Covered(Apply(s, Wait(b)), f)
  {
  }

  lemma JustifiedStep(s: State, a: Step)
    requires Safe(s) && Tracked(s) && Enabled(s, a) && Disciplined(s, a)
    ensures var t := Apply(s, a);
            && (forall f :: Ready(f) in Live(Pending(t)) && Watched(t, f) ==> Justified(t, t.fdmap[f]))
            && (forall c :: c in t.closed ==> Justified(t, c))
  {
    var t := Apply(s, a);
    forall f | Ready(f) in Live(Pending(t)) && Watched(t, f) ensures Justified(t, t.fdmap[f]) {
      if Watched(s, f) {
        assert Covered(s, f);
      }
      PendingJustified(s, a, f);
    }
    forall c | c in t.closed ensures Justified(t, c) {
      if c in s.closed {
        assert Justified(s, c);
        KeepsJustified(s, a, c);
      } else {
        var f := s.run.rest[0].fd;
        assert Ready(f) in Live(Pending(s)) && Watched(s, f);
      }
    }
  }

  lemma KeepsJustified(s: State, a: Step, c: Chan)
    requires Enabled(s, a) && Justified(s, c) && c < s.nextChan
    ensures Justified(Apply(s, a), c)
  {
  }

  lemma PendingJustified(s: State, a: Step, f: Fd)
    requires Enabled(s, a) && Disciplined(s, a) && !s.run.Broken?
    requires f in s.fdmap ==> s.fdmap[f] < s.nextChan
    requires Watched(s, f) ==> Covered(s, f)
    requires Ready(f) in Live(Pending(s)) && Watched(s, f) ==> Justified(s, s.fdmap[f])
    requires Ready(f) in Live(Pending(Apply(s, a))) && Watched(Apply(s, a), f)
    ensures Justified(Apply(s, a), Apply(s, a).fdmap[f])
  {
    match a
    case Process => PendingProcess(s, f);
    case Wait(b) => PendingWait(s, b, f);
    case Add(g, sysOk) => PendingAdd(s, g, sysOk, f);
    case _ => PendingStays(s, a, f);
  }

  lemma PendingProcess(s: State, f: Fd)
    requires Enabled(s, Process)
    requires Ready(f) in Live(Pending(s)) && Watched(s, f) ==> Justified(s, s.fdmap[f])
    requires Ready(f) in Live(Pending(Apply(s, Process))) && Watched(Apply(s, Process), f)
    ensures Justified(Apply(s, Process), Apply(s, Process).fdmap[f])
  {
    ProcessFacts(s);
    LiveHead(s.run.rest);
  }

  lemma LiveHead(b: seq<Event>)
    requires b != []
    ensures Live(b) == if b[0].Wake? then [] else [b[0]] + Live(b[1..])
  {
  }

  lemma PendingWait(s: State, b: seq<Event>, f: Fd)
    requires Enabled(s, Wait(b)) && (Watched(s, f) ==> Covered(s, f))
    requires Ready(f) in Live(b) && Watched(s, f)
    ensures Justified(Apply(s, Wait(b)), s.fdmap[f])
  {
    assert IsReady(s, f);
  }

  /** The other steps bring no event. */
  lemma PendingStays(s: State, a: Step, f: Fd)
    requires Enabled(s, a) && !a.Process? && !a.Wait? && !a.Add?
    requires Ready(f) in Live(Pending(s)) && Watched(s, f) ==> Justified(s, s.fdmap[f])
    requires Ready(f) in Live(Pending(Apply(s, a))) && Watched(Apply(s, a), f)
    ensures Justified(Apply(s, a), Apply(s, a).fdmap[f])
  {
    assert Pending(Apply(s, a)) == Pending(s);
  }

  /** Registering a pending fd number marks the new channel as late. */
  lemma PendingAdd(s: State, fd: Fd, sysOk: bool, f: Fd)
    requires MutexFree(s)
    requires f in s.fdmap ==> s.fdmap[f] < s.nextChan
    requires Ready(f) in Live(Pending(s)) && Watched(s, f) ==> Justified(s, s.fdmap[f])
    requires Ready(f) in Live(Pending(s)) && Watched(Apply(s, Add(fd, sysOk)), f)
    ensures Justified(Apply(s, Add(fd, sysOk)), Apply(s, Add(fd, sysOk)).fdmap[f])
  {
  }

  lemma {:induction false} TrackedRun(s: State, t: seq<Step>)
    requires Safe(s) && Tracked(s) && CanRun(s, t) && DisciplinedRun(s, t)
    ensures Safe(Exec(s, t)) && Tracked(Exec(s, t))
    decreases t
  {
    if t != [] {
      SafeStep(s, t[0]);
      TrackedStep(s, t[0]);
      TrackedRun(Apply(s, t[0]), t[1..]);
    }
  }

  /** No lost wake-up: before shutdown, a watched fd whose process has exited is either
      still armed and ready, or in the part of the current batch that will be acted on,
      or the batch holds the shutdown event. */
  lemma NoLostWakeup(t: seq<Step>, f: Fd)
    requires CanRun(Init(), t) && DisciplinedRun(Init(), t)
    ensures var s := Exec(Init(), t);
            !s.run.Broken? && Watched(s, f) && f in s.files && s.files[f] in s.exited
            ==> IsReady(s, f) || Ready(f) in Live(Pending(s)) || Wake in Pending(s)
  {
    TrackedRun(Init(), t);
    LiveIsAll(Pending(Exec(Init(), t)));
  }

  lemma {:induction false} LiveIsAll(b: seq<Event>)
    ensures Wake !in b ==> Live(b) == b
  {
    if b != [] {
      LiveIsAll(b[1..]);
    }
  }

  /** A closed channel means that its process exited, unless the channel was registered
      while its fd number was in the unprocessed part of a batch (`stale`). */
  lemma ClosedMeansExitedOrStale(t: seq<Step>, c: Chan)
    requires CanRun(Init(), t) && DisciplinedRun(Init(), t)
    requires c in Exec(Init(), t).closed
    ensures var s := Exec(Init(), t);
            c in s.owner && (s.owner[c] in s.exited || c in s.stale)
  {
    TrackedRun(Init(), t);
  }

  // ---------- a pending event closes whatever the map holds by then ----------

  /** What the loop does between two calls of epoll_wait. */
  predicate IsLoopStep(a: Step) { a.Lock? || a.Process? || a.Del? || a.Unlock? }

  /** The loop's next step. */
  function LoopStep(s: State): Step
    requires !s.run.Waiting? && !s.run.Broken?
  {
    match s.run
    case Returned(_) => Lock
    case Locked(r) => if r == [] then Unlock else Process
    case Deleting(_, _) => Del
  }

  function PhaseRank(s: State): nat {
    match s.run
    case Waiting => 0
    case Returned(b) => 2 + 2 * |b|
    case Locked(r) => 1 + 2 * |r|
    case Deleting(_, r) => 2 + 2 * |r|
    case Broken => 0
  }

  /** The effect of the loop's steps: channels may close, and nothing else that a client
      sees changes. */
  ghost predicate OnlyCloses(s: State, u: State) {
    && u.fdmap == s.fdmap && u.files == s.files && u.exited == s.exited
    && u.owner == s.owner && u.nextChan == s.nextChan && u.stale == s.stale
    && forall c :: c in s.closed ==> c in u.closed
  }

  lemma OnlyClosesTrans(s: State, u: State, v: State)
    requires OnlyCloses(s, u) && OnlyCloses(u, v)
    ensures OnlyCloses(s, v)
  {
  }

  lemma LoopStepFacts(s: State)
    requires !s.run.Waiting? && !s.run.Broken?
    ensures IsLoopStep(LoopStep(s)) && Enabled(s, LoopStep(s))
    ensures OnlyCloses(s, Apply(s, LoopStep(s))) && PhaseRank(Apply(s, LoopStep(s))) < PhaseRank(s)
  {
    match s.run
    case Returned(b) => assert Apply(s, Lock) == s.(run := Locked(b));
    case Locked(r) => LockedStepFacts(s);
    case Deleting(_, _) => DeleteFacts(s);
  }

  lemma LockedStepFacts(s: State)
    requires s.run.Locked?
    ensures OnlyCloses(s, Apply(s, LoopStep(s))) && PhaseRank(Apply(s, LoopStep(s))) < PhaseRank(s)
  {
    if s.run.rest == [] {
      assert Apply(s, Unlock) == s.(run := Waiting);
    } else {
      ProcessFacts(s);
    }
  }

  /** What Process does to the run loop and to the channels. */
  lemma ProcessFacts(s: State)
    requires Enabled(s, Process)
    ensures var e, rest, u := s.run.rest[0], s.run.rest[1..], Apply(s, Process);
            && OnlyCloses(s, u)
            && u.run == (if e.Wake? then Broken else if e.fd in s.fdmap then Deleting(e.fd, rest) else Locked(rest))
            && (e.Ready? && e.fd in s.fdmap ==> s.fdmap[e.fd] in u.closed)
  {
  }

  lemma DeleteFacts(s: State)
    requires s.run.Deleting?
    ensures OnlyCloses(s, Apply(s, Del)) && Apply(s, Del).run == Locked(s.run.rest)
  {
  }

  /** A live event stays live until its channel is closed. */
  lemma LiveStep(s: State, f: Fd)
    requires !s.run.Waiting? && !s.run.Broken? && Ready(f) in Live(Pending(s)) && f in s.fdmap
    ensures var u := Apply(s, LoopStep(s)); s.fdmap[f] in u.closed || Ready(f) in Live(Pending(u))
  {
    match s.run
    case Returned(b) => assert Apply(s, Lock) == s.(run := Locked(b));
    case Locked(r) => LiveProcess(s, f);
    case Deleting(_, _) => DeleteFacts(s);
  }

  lemma LiveProcess(s: State, f: Fd)
    requires s.run.Locked? && Ready(f) in Live(s.run.rest) && f in s.fdmap
    ensures var u := Apply(s, Process); s.fdmap[f] in u.closed || Ready(f) in Live(Pending(u))
  {
    ProcessFacts(s);
    LiveTail(s.run.rest, f);
  }

  lemma LiveTail(b: seq<Event>, f: Fd)
    requires Ready(f) in Live(b)
    ensures b != [] && b[0].Ready? && (b[0] == Ready(f) || Ready(f) in Live(b[1..]))
  {
  }

  /** From any phase, the run loop alone reaches a live event of the batch and closes the
      channel there. */
  lemma {:induction false} LiveIsDelivered(s: State, f: Fd) returns (t: seq<Step>)
    requires Ready(f) in Live(Pending(s)) && f in s.fdmap
    ensures CanRun(s, t) && s.fdmap[f] in Exec(s, t).closed && OnlyCloses(s, Exec(s, t))
    ensures forall a :: a in t ==> IsLoopStep(a)
    decreases PhaseRank(s)
  {
    var a := LoopStep(s);
    var u := Apply(s, a);
    LoopStepFacts(s);
    LiveStep(s, f);
    if s.fdmap[f] in u.closed {
      t := [];
    } else {
      t := LiveIsDelivered(u, f);
      OnlyClosesTrans(s, u, Exec(u, t));
    }
    RunCons(s, a, t);
    t := [a] + t;
  }

  /** Whatever batch the kernel reports, the loop acts on every event before the wake-up. */
  lemma ReportedIsDelivered(s: State, b: seq<Event>, f: Fd) returns (t: seq<Step>)
    requires Enabled(s, Wait(b)) && Ready(f) in Live(b) && f in s.fdmap
    ensures CanRun(s, [Wait(b)] + t) && s.fdmap[f] in Exec(s, [Wait(b)] + t).closed
    ensures forall a :: a in t ==> IsLoopStep(a)
  {
    t := LiveIsDelivered(Apply(s, Wait(b)), f);
    RunCons(s, Wait(b), t);
  }

  /** After an Add on a live pending fd number the run loop alone closes the new
      channel, whether or not the new process has exited. */
  lemma StaleAddIsClosed(s: State, f: Fd) returns (t: seq<Step>)
    requires s.run.Returned? && Ready(f) in Live(s.run.batch) && f in s.fdmap
    ensures CanRun(s, t) && DisciplinedRun(s, t)
    ensures s.fdmap[f] in Exec(s, t).closed && Exec(s, t).exited == s.exited
    ensures Exec(s, t).owner == s.owner
  {
    t := LiveIsDelivered(s, f);
    LoopRunIsDisciplined(s, t);
  }

  lemma {:induction false} LoopRunIsDisciplined(s: State, t: seq<Step>)
    requires CanRun(s, t) && forall a :: a in t ==> !a.CloseFd?
    ensures DisciplinedRun(s, t)
    decreases t
  {
    if t != [] {
      assert forall a :: a in t[1..] ==> a in t;
      LoopRunIsDisciplined(Apply(s, t[0]), t[1..]);
    }
  }

  lemma {:induction false} StaleIsDecidedByAdd(s: State, t: seq<Step>, c: Chan)
    requires CanRun(s, t) && c < s.nextChan
    ensures c in Exec(s, t).stale ==> c in s.stale
    decreases t
  {
    if t != [] {
      StaleStep(s, t[0], c);
      StaleIsDecidedByAdd(Apply(s, t[0]), t[1..], c);
    }
  }

  lemma StaleStep(s: State, a: Step, c: Chan)
    requires Enabled(s, a) && c < s.nextChan
    ensures c < Apply(s, a).nextChan && (c in Apply(s, a).stale ==> c in s.stale)
  {
  }

  /** Some disciplined run closes channel `c` before its process exits. */
  ghost predicate CanCloseEarly(s: State, c: Chan) {
    exists t: seq<Step> :: CanRun(s, t) && DisciplinedRun(s, t) && c in Exec(s, t).closed
                           && c in Exec(s, t).owner && Exec(s, t).owner[c] !in Exec(s, t).exited
  }

  /** The exact condition for a false exit notification: a channel registered for a
      running process can be closed before that process exits iff Add was called while
      the fd number was in the live part of the batch epoll_wait had returned. */
  lemma EarlyCloseExactly(s: State, f: Fd)
    requires Safe(s) && Tracked(s) && MutexFree(s) && AddResult(s, f, true).Some?
    requires s.files[f] !in s.exited
    ensures CanCloseEarly(Apply(s, Add(f, true)), s.nextChan) <==> Ready(f) in Live(Pending(s))
  {
    var c := s.nextChan;
    var s1 := Apply(s, Add(f, true));
    SafeStep(s, Add(f, true));
    TrackedStep(s, Add(f, true));
    if Ready(f) in Live(Pending(s)) {
      var t := StaleAddIsClosed(s1, f);
    } else {
      forall t: seq<Step> | CanRun(s1, t) && DisciplinedRun(s1, t) && c in Exec(s1, t).closed
        ensures c in Exec(s1, t).owner && Exec(s1, t).owner[c] in Exec(s1, t).exited
      {
        TrackedRun(s1, t);
        assert Justified(Exec(s1, t), c);
        StaleIsDecidedByAdd(s1, t, c);
      }
    }
  }

  /** No shutdown event has been reported. */
  predicate Alive(s: State) { !s.run.Broken? && Wake !in Pending(s) }

  lemma AliveStep(s: State)
    requires Alive(s) && !s.run.Waiting?
    ensures Alive(Apply(s, LoopStep(s)))
  {
    if s.run.Locked? && s.run.rest != [] {
      assert s.run.rest[0] in s.run.rest;
    }
  }

  /** The channels of all pending fds are closed. */
  ghost predicate PendingClosed(s: State, u: State) {
    forall f :: Ready(f) in Pending(s) && f in s.fdmap ==> s.fdmap[f] in u.closed
  }

  lemma PendingClosedStep(s: State, v: State)
    requires Alive(s) && !s.run.Waiting?
    requires var u := Apply(s, LoopStep(s)); OnlyCloses(s, u) && OnlyCloses(u, v) && PendingClosed(u, v)
    ensures PendingClosed(s, v)
  {
    LiveIsAll(Pending(s));
    forall f | Ready(f) in Pending(s) && f in s.fdmap ensures s.fdmap[f] in v.closed {
      LiveStep(s, f);
    }
  }

  /** The loop gets through its batch, closing what it acts on, and back to epoll_wait. */
  lemma {:induction false} FinishBatch(s: State) returns (t: seq<Step>)
    requires Safe(s) && Alive(s)
    ensures CanRun(s, t) && forall a :: a in t ==> IsLoopStep(a)
    ensures Exec(s, t).run == Waiting && OnlyCloses(s, Exec(s, t)) && Safe(Exec(s, t))
    ensures PendingClosed(s, Exec(s, t))
    decreases PhaseRank(s)
  {
    if s.run.Waiting? {
      t := [];
    } else {
      var a := LoopStep(s);
      LoopStepFacts(s);
      AliveStep(s);
      SafeStep(s, a);
      t := FinishBatch(Apply(s, a));
      RunCons(s, a, t);
      OnlyClosesTrans(s, Apply(s, a), Exec(Apply(s, a), t));
      PendingClosedStep(s, Exec(Apply(s, a), t));
      t := [a] + t;
    }
  }

  /** Before shutdown, in whatever phase the loop is, an exited process that is watched is
      reported: the loop and epoll_wait alone close its channel and wait again. */
  lemma WakeupIsDelivered(s: State, f: Fd) returns (t: seq<Step>)
    requires Safe(s) && Tracked(s) && Alive(s) && Watched(s, f)
    requires f in s.files && s.files[f] in s.exited
    ensures CanRun(s, t) && s.fdmap[f] in Exec(s, t).closed
    ensures forall a :: a in t ==> a.Wait? || IsLoopStep(a)
    ensures Exec(s, t).run == Waiting && OnlyCloses(s, Exec(s, t))
  {
    t := FinishBatch(s);
    var u := Exec(s, t);
    if s.fdmap[f] !in u.closed {
      LoopRunIsDisciplined(s, t);
      TrackedRun(s, t);
      assert Watched(u, f) && Covered(u, f);
      var t1 := WakeupFromWaiting(u, f);
      RunConcat(s, t, t1);
      OnlyClosesTrans(s, u, Exec(u, t1));
      t := t + t1;
    }
  }

  lemma WakeupFromWaiting(s: State, f: Fd) returns (t: seq<Step>)
    requires Safe(s) && s.run.Waiting? && f in s.fdmap && IsReady(s, f)
    ensures CanRun(s, t) && s.fdmap[f] in Exec(s, t).closed
    ensures forall a :: a in t ==> a.Wait? || IsLoopStep(a)
    ensures Exec(s, t).run == Waiting && OnlyCloses(s, Exec(s, t))
  {
    var b := [Ready(f)];
    var s1 := Apply(s, Wait(b));
    SafeStep(s, Wait(b));
    t := FinishBatch(s1);
    assert Ready(f) in Pending(s1);
    RunCons(s, Wait(b), t);
    OnlyClosesTrans(s, s1, Exec(s1, t));
    t := [Wait(b)] + t;
  }

  // ---------- every schedule ----------

  function ArmedFds(s: State): set<Fd> { set f | f in s.interest && s.interest[f] }

  /** What is left for the loop to do while nothing else happens. */
  function LoopRank(s: State): nat { PhaseRank(s) + (3 + 2 * BUFFER_SIZE) * |ArmedFds(s)| }

  predicate ByLoop(a: Step) { a.Wait? || IsLoopStep(a) }

  lemma Fewer(a: set<Fd>, b: set<Fd>)
    requires a <= b
    ensures |a| <= |b| && (a != b ==> |a| < |b|)
  {
    assert b == a + (b - a);
  }

  lemma WaitCounts(s: State, b: seq<Event>)
    requires Enabled(s, Wait(b)) && !s.signalled
    ensures LoopRank(Apply(s, Wait(b))) < LoopRank(s)
  {
    var u := Apply(s, Wait(b));
    assert b[0] in b && b[0].fd in ArmedFds(s) && b[0].fd !in ArmedFds(u);
    Fewer(ArmedFds(u), ArmedFds(s));
  }

  lemma LoopStepIs(s: State, a: Step)
    requires Enabled(s, a) && IsLoopStep(a)
    ensures !s.run.Waiting? && !s.run.Broken? && a == LoopStep(s)
    ensures ArmedFds(Apply(s, a)) <= ArmedFds(s) && Apply(s, a).signalled == s.signalled
  {
  }

  lemma LoopCounts(s: State, a: Step)
    requires Enabled(s, a) && ByLoop(a) && Alive(s) && !s.signalled
    ensures LoopRank(Apply(s, a)) < LoopRank(s)
    ensures Alive(Apply(s, a)) && !Apply(s, a).signalled && OnlyCloses(s, Apply(s, a))
  {
    if a.Wait? {
      WaitCounts(s, a.batch);
    } else {
      LoopStepIs(s, a);
      LoopStepFacts(s);
      AliveStep(s);
      Fewer(ArmedFds(Apply(s, a)), ArmedFds(s));
    }
  }

  lemma {:induction false} LoopRunCounts(s: State, t: seq<Step>)
    requires CanRun(s, t) && (forall a :: a in t ==> ByLoop(a)) && Alive(s) && !s.signalled
    ensures |t| + LoopRank(Exec(s, t)) <= LoopRank(s)
    ensures Alive(Exec(s, t)) && OnlyCloses(s, Exec(s, t))
    decreases t
  {
    if t != [] {
      assert t[0] in t && forall a :: a in t[1..] ==> a in t;
      LoopCounts(s, t[0]);
      LoopRunCounts(Apply(s, t[0]), t[1..]);
      OnlyClosesTrans(s, Apply(s, t[0]), Exec(s, t));
    }
  }

  /** No later step of the loop or of epoll_wait is possible. */
  ghost predicate AtRest(s: State) { forall a: Step :: ByLoop(a) ==> !Enabled(s, a) }

  /** Before shutdown every schedule of the loop and of epoll_wait, whatever batches it
      reports, comes to rest after at most LoopRank steps, and has by then closed the channel
      of every watched fd whose process has exited. */
  lemma EveryScheduleDelivers(s: State, t: seq<Step>, f: Fd)
    requires Safe(s) && Tracked(s) && Alive(s) && !s.signalled && Watched(s, f)
    requires f in s.files && s.files[f] in s.exited
    requires CanRun(s, t) && forall a :: a in t ==> ByLoop(a)
    ensures |t| <= LoopRank(s)
    ensures AtRest(Exec(s, t)) ==> s.fdmap[f] in Exec(s, t).closed
  {
    LoopRunCounts(s, t);
    LoopRunIsDisciplined(s, t);
    TrackedRun(s, t);
    var u := Exec(s, t);
    if AtRest(u) && s.fdmap[f] !in u.closed {
      if u.run.Waiting? {
        assert Watched(u, f) && Covered(u, f);
        assert Enabled(u, Wait([Ready(f)]));
      } else {
        LoopStepFacts(u);
      }
    }
  }

  // ---------- shutdown ----------

  /** `break loop` leaves with the mutex held: no later Add or Remove is ever granted. */
  lemma {:induction false} BrokenForever(s: State, t: seq<Step>, f: Fd, sysOk: bool)
    requires s.run.Broken? && CanRun(s, t)
    ensures var u := Exec(s, t);
            u.run.Broken? && !Enabled(u, Add(f, sysOk)) && !Enabled(u, Remove(f, sysOk))
    decreases t
  {
    if t != [] {
      BrokenForever(Apply(s, t[0]), t[1..], f, sysOk);
    }
  }
}

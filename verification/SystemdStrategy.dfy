/** The strategy object of execution/systemd.go; its methods and its goroutine are tied
    to the steps of `SystemdProtocol`. */
module SystemdStrategy {
  import opened Text
  import opened SystemdProtocol
  import W = SystemdWaiter

  datatype UnitFile = Missing | Unreadable | Holds(name: string)

  /** The two unit properties FindRunning looks at. */
  datatype UnitProps = UnitProps(loadError: string, inactiveEnterTimestamp: nat)

  datatype OutChannel = Nil | Open | Closed

  datatype Answer = NotRunning | Error | Running

  class Strategy {
    var unitName: string
    var chIn: Option<W.Chan>
    var chOut: OutChannel
    const waiter: W.Waiter
    // the unit, and where the functions and the goroutine are
    ghost var unit: string
    ghost var loaded: bool
    ghost var exited: bool
    ghost var pc: Pc
    ghost var watching: Watcher
    ghost var wasAssigned: bool
    ghost var clearedFirst: bool

    ghost function View(): State
      reads this, waiter
    {
      State(unit, waiter.View(), loaded, exited, pc, chIn, watching, unitName != "", wasAssigned, clearedFirst)
    }

    constructor (waiter: W.Waiter, ghost unit: string, ghost loaded: bool)
      ensures View() == State(unit, old(waiter.View()), loaded, false, Begin, None, NotStarted, false, false, false)
      ensures this.waiter == waiter && chOut == Nil
    {
      this.waiter := waiter;
      unitName, chIn, chOut := "", None, Nil;
      this.unit, this.loaded, exited, pc, watching := unit, loaded, false, Begin, NotStarted;
      wasAssigned, clearedFirst := false, false;
    }

    method FindRunning(file: UnitFile, props: Option<UnitProps>, fileRemoved: bool) returns (r: Answer)
      requires file.Holds? ==> file.name == unit && Enabled(View(), FindAdd)
      requires props.Some? ==> (props.value == UnitProps("", 0) <==> loaded && !exited)
      modifies this, waiter
      ensures !file.Holds? ==> View() == old(View()) && r == if file.Missing? then NotRunning else Error
      ensures file.Holds? ==> View() == FindOutcome(old(View()), props.Some?)
      ensures file.Holds? ==> r == FindAnswer(pc, fileRemoved) && (r == Running ==> chOut == Open)
      ensures file.Holds? && file.name in old(waiter.unitMap) ==> r == Error && waiter.unitMap == old(waiter.unitMap)
      ensures file.Holds? && file.name !in old(waiter.unitMap) ==>
                match props
                case None => r == Error && waiter.unitMap == old(waiter.unitMap)[file.name := old(waiter.nextChan)]
                case Some(p) =>
                  if p.loadError == "" && p.inactiveEnterTimestamp == 0 then
                    && r == Running && unitName == file.name && chIn == Some(old(waiter.nextChan))
                    && waiter.unitMap == old(waiter.unitMap)[file.name := old(waiter.nextChan)]
                  else
                    && r == (if fileRemoved then NotRunning else Error)
                    && unitName == "" && chIn == None && chOut == Nil && waiter.unitMap == old(waiter.unitMap)
    {
      match file
      case Missing => r := NotRunning;
      case Unreadable => r := Error;
      case Holds(name) => r := FindUnit(name, props, fileRemoved);
    }

    method FindUnit(name: string, props: Option<UnitProps>, fileRemoved: bool) returns (r: Answer)
      requires name == unit && Enabled(View(), FindAdd)
      requires props.Some? ==> (props.value == UnitProps("", 0) <==> loaded && !exited)
      modifies this, waiter
      ensures View() == FindOutcome(old(View()), props.Some?)
      ensures r == FindAnswer(pc, fileRemoved) && (r == Running ==> chOut == Open)
      ensures name in old(waiter.unitMap) ==> r == Error && waiter.unitMap == old(waiter.unitMap)
      ensures name !in old(waiter.unitMap) && props.None? ==>
                r == Error && waiter.unitMap == old(waiter.unitMap)[name := old(waiter.nextChan)]
      ensures name !in old(waiter.unitMap) && props == Some(UnitProps("", 0)) ==>
                && r == Running && unitName == name && chIn == Some(old(waiter.nextChan))
                && waiter.unitMap == old(waiter.unitMap)[name := old(waiter.nextChan)]
      ensures name !in old(waiter.unitMap) && props.Some? && props.value != UnitProps("", 0) ==>
                && r == (if fileRemoved then NotRunning else Error)
                && unitName == "" && chIn == None && chOut == Nil && waiter.unitMap == old(waiter.unitMap)
    {
      var running := SubscribeAndQuery(name, props);
      if running.None? {
        return Error;
      }
      r := Decide(name, running.value, fileRemoved);
    }

    /** What follows the query. */
    method Decide(name: string, running: bool, fileRemoved: bool) returns (r: Answer)
      requires name == unit && pc == Seen(running)
      modifies this, waiter
      ensures View() == if running then Launched(old(View())) else Apply(old(View()), GiveUp)
      ensures r == FindAnswer(pc, fileRemoved) && (r == Running ==> chOut == Open)
      ensures running ==> r == Running && unitName == name && chIn == old(chIn) && waiter.unitMap == old(waiter.unitMap)
      ensures !running ==>
                && r == (if fileRemoved then NotRunning else Error)
                && unitName == "" && chIn == None && chOut == Nil && waiter.unitMap == old(waiter.unitMap) - {name}
    {
      if running {
        Launch(name);
        return Running;
      }
      GiveUpOn(name);
      return if fileRemoved then NotRunning else Error;
    }

    method SubscribeAndQuery(name: string, props: Option<UnitProps>) returns (running: Option<bool>)
      requires name == unit && Enabled(View(), FindAdd)
      requires props.Some? ==> (props.value == UnitProps("", 0) <==> loaded && !exited)
      modifies this`chIn, this`pc, waiter
      ensures var s := Subscribe(old(View()), Added);
              && running == (if s.pc == Failed || props.None? then None else Some(loaded && !exited))
              && View() == s.(pc := if running.None? then Failed else Seen(loaded && !exited))
      ensures running == if name in old(waiter.unitMap) || props.None? then None
                         else Some(props.value.loadError == "" && props.value.inactiveEnterTimestamp == 0)
      ensures waiter.unitMap == if name in old(waiter.unitMap) then old(waiter.unitMap)
                                else old(waiter.unitMap)[name := old(waiter.nextChan)]
      ensures chIn == if name in old(waiter.unitMap) then None else Some(old(waiter.nextChan))
    {
      AddToWaiter(name, Added);
      if chIn.None? || props.None? {
        pc := Failed;
        return None;
      }
      pc := Seen(loaded && !exited);
      return Some(props.value.loadError == "" && props.value.inactiveEnterTimestamp == 0);
    }

    /** `s.chIn, err = s.sdWaiter.Add(unitName)`: chIn is nil after an error. */
    method AddToWaiter(name: string, ghost next: Pc)
      requires name == unit && next != Failed
      modifies this`chIn, this`pc, waiter
      ensures View() == Subscribe(old(View()), next) && (chIn.None? <==> pc == Failed)
      ensures waiter.unitMap == if name in old(waiter.unitMap) then old(waiter.unitMap)
                                else old(waiter.unitMap)[name := old(waiter.nextChan)]
      ensures chIn == if name in old(waiter.unitMap) then None else Some(old(waiter.nextChan))
    {
      ghost var s := View();
      chIn := waiter.Add(name);
      assert waiter.View() == W.AddUnit(s.w, name);
      pc := if chIn.None? then Failed else next;
    }

    method GiveUpOn(name: string)
      requires name == unit && Enabled(View(), GiveUp)
      modifies this`chIn, this`chOut, this`unitName, this`pc, waiter
      ensures View() == Apply(old(View()), GiveUp) && chOut == Nil && chIn == None && unitName == ""
      ensures waiter.unitMap == old(waiter.unitMap) - {name}
    {
      var _ := waiter.Remove(name);
      chIn, chOut, unitName, pc := None, Nil, "", ReturnedNil;
    }

    /** Start after the transient unit's start job has finished with "done". */
    method StartWatching(name: string) returns (r: Answer)
      requires name == unit && pc == Started && watching == NotStarted
      modifies this, waiter
      ensures View() == StartOutcome(old(View()))
      ensures if r == Running then pc == Returned && chOut == Open else r == Error && pc == Failed
      ensures r == if name in old(waiter.unitMap) then Error else Running
      ensures r == Running ==> unitName == name && chIn == Some(old(waiter.nextChan))
      ensures r == Running ==> waiter.unitMap == old(waiter.unitMap)[name := old(waiter.nextChan)]
      ensures r == Error ==> chIn == None && waiter.unitMap == old(waiter.unitMap)
    {
      AddToWaiter(name, Registered);
      if chIn.None? {
        return Error;
      }
      Launch(name);
      return Running;
    }

    /** Makes chOut, starts the goroutine, assigns the unit name. */
    method Launch(name: string)
      requires name == unit
      modifies this`chOut, this`watching, this`unitName, this`pc, this`wasAssigned
      ensures View() == Launched(old(View()))
      ensures chOut == Open && unitName == name
    {
      chOut := Open;
      watching := Waiting;
      unitName := name;
      pc := Returned;
      wasAssigned := true;
    }

    /** The goroutine, once chIn has been closed. */
    method Watch()
      requires Enabled(View(), WatchClear) && chOut == Open
      modifies this`unitName, this`clearedFirst, this`watching, this`chOut
      ensures CanRun(old(View()), [WatchClear, WatchClose])
      ensures View() == Exec(old(View()), [WatchClear, WatchClose])
      ensures chOut == Closed && unitName == ""
    {
      ghost var s := View();
      unitName := "";
      clearedFirst := !wasAssigned;
      watching := Cleared;
      ghost var s1 := Apply(s, WatchClear);
      assert View() == s1;
      chOut := Closed;
      watching := Done;
      assert View() == s1.(watch := Done);
      RunCons(s1, WatchClose, []);
      RunCons(s, WatchClear, [WatchClose]);
    }

    method IsRunning() returns (r: bool)
      ensures r == (unitName != "")
    {
      return unitName != "";
    }
  }

  function FindAnswer(pc: Pc, fileRemoved: bool): Answer {
    if pc == Returned then Running
    else if pc == ReturnedNil && fileRemoved then NotRunning
    else Error
  }

  /** Spawn and Assign. */
  function Launched(s: State): State {
    s.(pc := Returned, watch := Waiting, named := s.unit != "", wasAssigned := true)
  }

  /** The state after FindRunning read the unit's name, and after Start subscribed. */
  function FindOutcome(s: State, queried: bool): State {
    var s1 := Subscribe(s, Added);
    if s1.pc == Failed || !queried then s1.(pc := Failed)
    else if !s.loaded || s.exited then Apply(s1.(pc := Seen(false)), GiveUp)
    else Launched(s1)
  }

  function StartOutcome(s: State): State {
    if s.unit in s.w.unitMap then s.(chIn := None, pc := Failed)
    else Launched(s.(w := W.AddUnit(s.w, s.unit), chIn := Some(s.w.nextChan)))
  }

  function FindPath(s: State, queried: bool): seq<Step> {
    if s.unit in s.w.unitMap then [FindAdd]
    else if !queried then [FindAdd, Query(false)]
    else if !s.loaded || s.exited then [FindAdd, Query(true), GiveUp]
    else [FindAdd, Query(true), Spawn, Assign]
  }

  function StartPath(s: State): seq<Step> {
    if s.unit in s.w.unitMap then [StartAdd] else [StartAdd, Spawn, Assign]
  }

  /** Undisturbed, the methods take these runs of the step system. */
  lemma FindOutcomeIsRun(s: State, queried: bool)
    requires Enabled(s, FindAdd)
    ensures CanRun(s, FindPath(s, queried))
    ensures Exec(s, FindPath(s, queried)) == FindOutcome(s, queried)
  {
    var s1 := Apply(s, FindAdd);
    if s1.pc == Failed {
      RunCons(s, FindAdd, []);
    } else {
      QueryRuns(s1, queried);
      RunCons(s, FindAdd, FindPath(s, queried)[1..]);
    }
  }

  lemma QueryRuns(s: State, queried: bool)
    requires s.pc == Added
    ensures var t := if !queried then [Query(false)]
                     else if !s.loaded || s.exited then [Query(true), GiveUp]
                     else [Query(true), Spawn, Assign];
            && CanRun(s, t)
            && Exec(s, t) == if !queried then s.(pc := Failed)
                             else if !s.loaded || s.exited then Apply(s.(pc := Seen(false)), GiveUp)
                             else Launched(s)
  {
    if !queried {
      RunCons(s, Query(false), []);
    } else {
      var s2 := Apply(s, Query(true));
      if !s.loaded || s.exited {
        RunCons(s2, GiveUp, []);
        RunCons(s, Query(true), [GiveUp]);
      } else {
        var s3 := Apply(s2, Spawn);
        RunCons(s3, Assign, []);
        RunCons(s2, Spawn, [Assign]);
        RunCons(s, Query(true), [Spawn, Assign]);
      }
    }
  }

  lemma StartOutcomeIsRun(s: State)
    requires Enabled(s, StartAdd)
    ensures CanRun(s, StartPath(s)) && Exec(s, StartPath(s)) == StartOutcome(s)
  {
    var s1 := Apply(s, StartAdd);
    if s.unit in s.w.unitMap {
      RunCons(s, StartAdd, []);
    } else {
      var s2 := Apply(s1, Spawn);
      RunCons(s2, Assign, []);
      RunCons(s1, Spawn, [Assign]);
      RunCons(s, StartAdd, [Spawn, Assign]);
    }
  }
}

/** The unit waiter of systemd/waiter.go: a map from unit names to channels, and one
    goroutine for every signal that arrives. */
module SystemdWaiter {
  import opened Text
  import opened BusEscape

  type Chan = nat

  /** The two properties looked at; None when absent or of the wrong type. */
  datatype Props = Props(inactiveEnter: Option<nat>, activeState: Option<string>)

  /** A PropertiesChanged signal; the body is None when it is not a dictionary. */
  datatype Signal = Signal(path: string, body: Option<Props>)

  const UNIT_PATH_PREFIX := "/org/freedesktop/systemd1/unit/"

  predicate Qualifies(body: Option<Props>) {
    && body.Some?
    && body.value.inactiveEnter.Some? && body.value.inactiveEnter.value != 0
    && body.value.activeState.Some? && body.value.activeState.value != "active"
  }

  /** The unit whose channel a handler closes if it is in the map; None for no unit. */
  function Target(prefix: string, sig: Signal): Option<string> {
    if !(UNIT_PATH_PREFIX <= sig.path) then None
    else
      var unitName := Unescape(sig.path[|UNIT_PATH_PREFIX|..]);
      if prefix <= unitName && Qualifies(sig.body) then Some(unitName) else None
  }

  datatype State = State(
    prefix: string,
    unitMap: map<string, Chan>,
    nextChan: Chan,
    closed: multiset<Chan>,
    pending: multiset<Signal>)   // emitted, its handler not yet past the mutex

  datatype Step =
    | Add(u: string)
    | Remove(u: string)
    | Emit(sig: Signal)
    | Handle(sig: Signal)   // the mutex-protected part of one handler, in any order

  function Init(prefix: string): State { State(prefix, map[], 0, multiset{}, multiset{}) }

  predicate Enabled(s: State, a: Step) { a.Handle? ==> a.sig in s.pending }

  function Notify(s: State, sig: Signal): State {
    var u := Target(s.prefix, sig);
    if u.Some? then CloseUnit(s, u.value) else s
  }

  function CloseUnit(s: State, u: string): State {
    if u in s.unitMap then
      s.(unitMap := s.unitMap - {u}, closed := s.closed + multiset{s.unitMap[u]})
    else s
  }

  function AddUnit(s: State, u: string): State {
    if u in s.unitMap then s
    else s.(unitMap := s.unitMap[u := s.nextChan], nextChan := s.nextChan + 1)
  }

  function RemoveUnit(s: State, u: string): State { s.(unitMap := s.unitMap - {u}) }

  function Apply(s: State, a: Step): State
    requires Enabled(s, a)
  {
    match a
    case Add(u) => AddUnit(s, u)
    case Remove(u) => RemoveUnit(s, u)
    case Emit(sig) => s.(pending := s.pending + multiset{sig})
    case Handle(sig) => Notify(s.(pending := s.pending - multiset{sig}), sig)
  }

  predicate CanRun(s: State, t: seq<Step>)
    decreases t
  {
    t == [] || (Enabled(s, t[0]) && CanRun(Apply(s, t[0]), t[1..]))
  }

  function Exec(s: State, t: seq<Step>): State
    requires CanRun(s, t)
    decreases t
  {
    if t == [] then s else Exec(Apply(s, t[0]), t[1..])
  }

  // ---------- every interleaving ----------

  /** The map holds only open channels, each once, and no channel is closed twice. */
  ghost predicate Safe(s: State) {
    && (forall u :: u in s.unitMap ==> s.unitMap[u] < s.nextChan && s.unitMap[u] !in s.closed)
    && (forall u, v :: u in s.unitMap && v in s.unitMap && s.unitMap[u] == s.unitMap[v] ==> u == v)
    && (forall c :: c in s.closed ==> c < s.nextChan)
    && (forall c :: s.closed[c] <= 1)
  }

  lemma SafeStep(s: State, a: Step)
    requires Safe(s) && Enabled(s, a)
    ensures Safe(Apply(s, a))
  {
    match a
    case Add(u) => SafeAdd(s, u);
    case Handle(sig) => SafeNotify(s.(pending := s.pending - multiset{sig}), sig);
    case _ =>
  }

  lemma SafeAdd(s: State, u: string)
    requires Safe(s)
    ensures Safe(AddUnit(s, u))
  {
  }

  lemma SafeNotify(s: State, sig: Signal)
    requires Safe(s)
    ensures Safe(Notify(s, sig))
  {
    var u := Target(s.prefix, sig);
    if u.Some? && u.value in s.unitMap {
      SafeClose(s, u.value);
    }
  }

  lemma SafeClose(s: State, u: string)
    requires Safe(s) && u in s.unitMap
    ensures Safe(s.(unitMap := s.unitMap - {u}, closed := s.closed + multiset{s.unitMap[u]}))
  {
  }

  lemma {:induction false} SafeRun(s: State, t: seq<Step>)
    requires Safe(s) && CanRun(s, t)
    ensures Safe(Exec(s, t)) && Exec(s, t).prefix == s.prefix
    decreases t
  {
    if t != [] {
      SafeStep(s, t[0]);
      SafeRun(Apply(s, t[0]), t[1..]);
    }
  }

  // ---------- exact delivery ----------

  /** A signal says that its unit is inactive: the time of becoming so is set, and the state
      is not "active". */
  lemma QualifiesExactly(inactiveEnter: Option<nat>, activeState: Option<string>)
    ensures !Qualifies(None)
    ensures !Qualifies(Some(Props(None, activeState))) && !Qualifies(Some(Props(inactiveEnter, None)))
    ensures !Qualifies(Some(Props(Some(0), activeState))) && !Qualifies(Some(Props(inactiveEnter, Some("active"))))
    ensures inactiveEnter.Some? && inactiveEnter.value > 0 && activeState.Some? && activeState.value != "active"
            ==> Qualifies(Some(Props(inactiveEnter, activeState)))
  {
  }

  /** Signals at other paths are about no unit. */
  lemma TargetElsewhere(prefix: string, sig: Signal)
    requires !("/org/freedesktop/systemd1/unit/" <= sig.path)
    ensures Target(prefix, sig) == None
  {
  }

  lemma TargetOfUnitPath(prefix: string, v: Bytes, body: Option<Props>)
    requires AllFromSpace(v)
    ensures Target(prefix, Signal("/org/freedesktop/systemd1/unit/" + Escape(v), body))
            == if prefix <= v && body.Some? && body.value.inactiveEnter.Some? && body.value.inactiveEnter.value > 0
                  && body.value.activeState.Some? && body.value.activeState.value != "active"
               then Some(v) else None
  {
    RoundTripExactly(v);
    var path := UNIT_PATH_PREFIX + Escape(v);
    assert path[|UNIT_PATH_PREFIX|..] == Escape(v);
  }

  /** A signal at its escaped path is taken for one about unit `v` exactly when all bytes of
      the name are at least 0x10, the name has the prefix and the properties qualify. */
  lemma TargetExactly(prefix: string, v: Bytes, body: Option<Props>)
    ensures Target(prefix, Signal("/org/freedesktop/systemd1/unit/" + Escape(v), body)) == Some(v)
            <==> AllFromSpace(v) && prefix <= v
                 && body.Some? && body.value.inactiveEnter.Some? && body.value.inactiveEnter.value > 0
                 && body.value.activeState.Some? && body.value.activeState.value != "active"
  {
    RoundTripExactly(v);
    var path := UNIT_PATH_PREFIX + Escape(v);
    assert path[|UNIT_PATH_PREFIX|..] == Escape(v);
  }

  /** In every reachable state, handling a signal at the escaped path of unit `v` closes the
      channel of `v` and no other if `v` has the prefix and is waited on, the signal has a
      nonzero InactiveEnterTimestamp and an ActiveState, and the state is not "active";
      otherwise it closes nothing and leaves the map alone. */
  lemma ExactDelivery(prefix: string, t: seq<Step>, v: Bytes, body: Option<Props>)
    requires AllFromSpace(v) && CanRun(Init(prefix), t)
    requires Signal("/org/freedesktop/systemd1/unit/" + Escape(v), body) in Exec(Init(prefix), t).pending
    ensures var s := Exec(Init(prefix), t);
            var s' := Apply(s, Handle(Signal("/org/freedesktop/systemd1/unit/" + Escape(v), body)));
            if prefix <= v && v in s.unitMap
               && body.Some? && body.value.inactiveEnter.Some? && body.value.inactiveEnter.value > 0
               && body.value.activeState.Some? && body.value.activeState.value != "active" then
              && s'.closed == s.closed + multiset{s.unitMap[v]} && s.unitMap[v] !in s.closed
              && s'.unitMap == s.unitMap - {v}
            else s'.closed == s.closed && s'.unitMap == s.unitMap
  {
    TargetOfUnitPath(prefix, v, body);
    SafeRun(Init(prefix), t);
  }

  /** Outside that domain, whatever the configured prefix is: in a reachable state a signal
      at the escaped path of one unit closes the channel of another. */
  lemma WrongUnitBelowSpace(prefix: Bytes, body: Option<Props>)
    requires AllFromSpace(prefix) && Qualifies(body)
    ensures var u: Bytes := prefix + [10 as char, 'b'];
            var v: Bytes := prefix + [171 as char];
            var sig := Signal(UNIT_PATH_PREFIX + Escape(u), body);
            && u != v && prefix <= u && CanRun(Init(prefix), [Add(v), Emit(sig)])
            && var s := Exec(Init(prefix), [Add(v), Emit(sig)]);
               && v in s.unitMap && sig in s.pending
               && s.unitMap[v] !in s.closed && s.unitMap[v] in Apply(s, Handle(sig)).closed
  {
    var u: Bytes := prefix + [10 as char, 'b'];
    var v: Bytes := prefix + [171 as char];
    EscapeCollides(prefix);
    TargetExactly(prefix, v, body);
    assert u[|prefix|] != v[|prefix|];
    AddedAndSignalled(prefix, v, Signal(UNIT_PATH_PREFIX + Escape(u), body));
  }

  lemma AddedAndSignalled(prefix: string, v: string, sig: Signal)
    requires Target(prefix, sig) == Some(v)
    ensures CanRun(Init(prefix), [Add(v), Emit(sig)])
    ensures var s := Exec(Init(prefix), [Add(v), Emit(sig)]);
            && v in s.unitMap && sig in s.pending
            && s.unitMap[v] !in s.closed && s.unitMap[v] in Apply(s, Handle(sig)).closed
  {
    TwoSteps(Init(prefix), Add(v), Emit(sig));
    var s := Apply(Apply(Init(prefix), Add(v)), Emit(sig));
    assert s.unitMap == map[v := 0] && s.prefix == prefix && s.closed == multiset{};
    assert sig in s.pending;
  }

  lemma TwoSteps(s: State, a: Step, b: Step)
    requires Enabled(s, a) && Enabled(Apply(s, a), b)
    ensures CanRun(s, [a, b]) && Exec(s, [a, b]) == Apply(Apply(s, a), b)
  {
    RunCons(Apply(s, a), b, []);
    RunCons(s, a, [b]);
  }

  lemma RunCons(s: State, a: Step, t: seq<Step>)
    requires Enabled(s, a) && CanRun(Apply(s, a), t)
    ensures CanRun(s, [a] + t) && Exec(s, [a] + t) == Exec(Apply(s, a), t)
  {
    assert ([a] + t)[1..] == t;
  }

  // ---------- the object ----------

  class Waiter {
    const unitNamePrefix: string
    var unitMap: map<string, Chan>
    var nextChan: Chan
    var closed: multiset<Chan>
    ghost var pending: multiset<Signal>

    ghost function View(): State
      reads this
    {
      State(unitNamePrefix, unitMap, nextChan, closed, pending)
    }

    constructor (unitNamePrefix: string)
      ensures View() == Init(unitNamePrefix)
    {
      this.unitNamePrefix := unitNamePrefix;
      unitMap, nextChan, closed, pending := map[], 0, multiset{}, multiset{};
    }

    method HandleSignal(signal: Signal)
      requires signal in pending
      modifies this
      ensures View() == Apply(old(View()), Handle(signal))
    {
      pending := pending - multiset{signal};
      var unitName := UnitOf(signal);
      if unitName.None? {
        return;
      }
      Close(unitName.value);
    }

    /** The checks before the mutex is taken. */
    method UnitOf(signal: Signal) returns (unit: Option<string>)
      ensures unit == Target(unitNamePrefix, signal)
    {
      if !(UNIT_PATH_PREFIX <= signal.path) {
        return None;
      }
      var unitNameEscaped := signal.path[|UNIT_PATH_PREFIX|..];
      var unitName := PathBusUnescape(unitNameEscaped);
      if !(unitNamePrefix <= unitName) || signal.body.None? {
        return None;
      }
      var properties := signal.body.value;
      if properties.inactiveEnter.None? || properties.inactiveEnter.value == 0 {
        return None;
      }
      if properties.activeState.None? || properties.activeState.value == "active" {
        return None;
      }
      return Some(unitName);
    }

    /** The part under the mutex. */
    method Close(unitName: string)
      modifies this`unitMap, this`closed
      ensures View() == CloseUnit(old(View()), unitName)
      ensures unitMap == old(unitMap) - {unitName}
      ensures closed == if unitName in old(unitMap) then old(closed) + multiset{old(unitMap)[unitName]} else old(closed)
    {
      if unitName in unitMap {
        var ch := unitMap[unitName];
        unitMap := unitMap - {unitName};
        closed := closed + multiset{ch};
      }
    }

    method Add(unitName: string) returns (r: Option<Chan>)
      modifies this
      ensures View() == AddUnit(old(View()), unitName)
      ensures unitMap == if unitName in old(unitMap) then old(unitMap) else old(unitMap)[unitName := old(nextChan)]
      ensures closed == old(closed) && nextChan == old(nextChan) + if unitName in old(unitMap) then 0 else 1
      ensures r == if unitName in old(unitMap) then None else Some(old(nextChan))
    {
      if unitName in unitMap {
        return None;
      }
      var ch := nextChan;
      nextChan := nextChan + 1;
      unitMap := unitMap[unitName := ch];
      return Some(ch);
    }

    method Remove(unitName: string) returns (ok: bool)
      modifies this
      ensures View() == RemoveUnit(old(View()), unitName)
      ensures unitMap == old(unitMap) - {unitName} && closed == old(closed)
      ensures ok == (unitName in old(unitMap))
    {
      if unitName !in unitMap {
        assert unitMap - {unitName} == unitMap;
        return false;
      }
      unitMap := unitMap - {unitName};
      return true;
    }
  }
}

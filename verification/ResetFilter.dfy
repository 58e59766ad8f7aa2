/** The watcher's loop over QEMU events in driver/driver.go, and its filter for the
    second of every two RESET events. */
module ResetFilter {
  import opened Text

  /** An event of QEMU with the clock reading, in nanoseconds, and the `guest` entry of its
      data, if there is one. */
  datatype Event = Event(name: string, at: int, guest: Option<bool>)

  /** What is published to the driver's subscribers. */
  datatype Message = Stopped(guest: bool) | Restarted(guest: bool)

  const WINDOW := 100_000_000   // 100 ms

  /** Readings of a monotonic clock. */
  predicate Ordered(events: seq<Event>) {
    forall i, j :: 0 <= i < j < |events| ==> events[i].at <= events[j].at
  }

  predicate IsReset(e: Event) { e.name == "RESET" }

  /** The times of the RESET events, in order. */
  function Resets(events: seq<Event>): (r: seq<int>) {
    if events == [] then []
    else
      var init := Resets(events[..|events| - 1]);
      var last := events[|events| - 1];
      if IsReset(last) then init + [last.at] else init
  }

  /** RESETs 2i and 2i+1 came less than 100 ms apart. */
  predicate Close(r: seq<int>, i: nat)
    requires i < |r| / 2
  {
    r[2 * i + 1] - r[2 * i] < WINDOW
  }

  predicate AllClose(r: seq<int>) {
    forall i: nat :: i < |r| / 2 ==> Close(r, i)
  }

  /** The closed form: the last RESET of `r` is dropped iff it is the second of its pair
      and every pair up to and including it was close. */
  predicate Suppressed(r: seq<int>) { r != [] && |r| % 2 == 0 && AllClose(r) }

  /** The events handed to handleQemuEvent. */
  function Handled(events: seq<Event>): seq<Event> {
    if events == [] then []
    else
      var init := Handled(events[..|events| - 1]);
      var last := events[|events| - 1];
      if last.name == "" || (IsReset(last) && Suppressed(Resets(events))) then init
      else init + [last]
  }

  /** The watcher's state after the RESETs of `r`: the zero time while it expects the
      first of a pair, otherwise the time of an unmatched RESET, which is kept for ever
      once its partner came too late. */
  ghost predicate LastResetIs(r: seq<int>, last: Option<int>) {
    if AllClose(r) then
      last == if |r| % 2 == 0 then None else Some(r[|r| - 1])
    else
      last.Some? && r != [] && r[|r| - 1] - last.value >= WINDOW
  }

  /** What handleQemuEvent publishes. */
  function MessageOf(e: Event): Option<Message> {
    var guest := e.guest == Some(true);
    if e.name == "SHUTDOWN" then Some(Stopped(guest))
    else if e.name == "RESET" then Some(Restarted(guest))
    else None
  }

  function Messages(events: seq<Event>): seq<Message> {
    if events == [] then []
    else
      var m := MessageOf(events[|events| - 1]);
      Messages(events[..|events| - 1]) + if m.Some? then [m.value] else []
  }

  method HandleQemuEvent(e: Event) returns (published: seq<Message>)
    ensures published == if MessageOf(e).Some? then [MessageOf(e).value] else []
    ensures e.name == "SHUTDOWN" ==> published == [Stopped(e.guest == Some(true))]
    ensures e.name == "RESET" ==> published == [Restarted(e.guest == Some(true))]
    ensures e.name != "SHUTDOWN" && e.name != "RESET" ==> published == []
  {
    match e.name
    case "SHUTDOWN" =>
      var guest := false;
      if e.guest.Some? {
        guest := e.guest.value;
      }
      return [Stopped(guest)];
    case "RESET" =>
      var guest := false;
      if e.guest.Some? {
        guest := e.guest.value;
      }
      return [Restarted(guest)];
    case _ => return [];
  }

  /** The loop. `lastReset` is None for Go's zero time. */
  method Watch(events: seq<Event>) returns (handled: seq<Event>, published: seq<Message>)
    requires Ordered(events)
    ensures handled == Handled(events) && published == Messages(handled)
  {
    handled, published := [], [];
    var lastReset: Option<int> := None;
    for i := 0 to |events|
      invariant handled == Handled(events[..i]) && published == Messages(handled)
      invariant LastResetIs(Resets(events[..i]), lastReset)
    {
      var event := events[i];
      ResetsBounded(events, i);
      TakeOne(events, i);
      if event.name == "" {
        continue;
      }
      if event.name == "RESET" {
        FilterStep(Resets(events[..i]), lastReset, event.at);
        if lastReset == None {
          lastReset := Some(event.at);
        } else if event.at < lastReset.value + WINDOW {
          lastReset := None;
          continue;
        }
      }
      var messages := HandleQemuEvent(event);
      MessagesSnoc(handled, event);
      handled, published := handled + [event], published + messages;
    }
    assert events[..|events|] == events;
  }

  lemma TakeOne(events: seq<Event>, i: nat)
    requires i < |events|
    ensures var e, r := events[i], Resets(events[..i]);
            && Resets(events[..i + 1]) == (if IsReset(e) then r + [e.at] else r)
            && Handled(events[..i + 1])
               == if e.name == "" || (IsReset(e) && Suppressed(r + [e.at])) then Handled(events[..i])
                  else Handled(events[..i]) + [e]
  {
    assert events[..i + 1][..i] == events[..i];
  }

  /** The three cases of a RESET at time `t`. */
  lemma FilterStep(r: seq<int>, last: Option<int>, t: int)
    requires LastResetIs(r, last) && forall k :: 0 <= k < |r| ==> r[k] <= t
    ensures last == None ==> LastResetIs(r + [t], Some(t)) && !Suppressed(r + [t])
    ensures last.Some? && t < last.value + WINDOW ==> LastResetIs(r + [t], None) && Suppressed(r + [t])
    ensures last.Some? && t >= last.value + WINDOW ==> LastResetIs(r + [t], last) && !Suppressed(r + [t])
  {
    AllCloseSnoc(r, t);
  }

  lemma {:induction false} ResetsBounded(events: seq<Event>, i: nat)
    requires Ordered(events) && i < |events|
    ensures forall k :: 0 <= k < |Resets(events[..i])| ==> Resets(events[..i])[k] <= events[i].at
  {
    if i > 0 {
      assert events[..i][..i - 1] == events[..i - 1];
      ResetsBounded(events, i - 1);
    }
  }

  lemma AllCloseSnoc(r: seq<int>, t: int)
    ensures AllClose(r + [t]) <==>
            AllClose(r) && (|r| % 2 == 1 ==> t - r[|r| - 1] < WINDOW)
  {
    var s := r + [t];
    if AllClose(s) {
      forall i: nat | i < |r| / 2 ensures Close(r, i) {
        assert Close(s, i);
      }
      if |r| % 2 == 1 {
        assert Close(s, |r| / 2);
      }
    } else {
      var i: nat :| i < |s| / 2 && !Close(s, i);
      assert i < |r| / 2 ==> !Close(r, i);
    }
  }

  // ---------- consequences, over every ordered stream ----------

  /** Whether RESET number `k` is dropped. */
  predicate Dropped(r: seq<int>, k: nat)
    requires k < |r|
  {
    Suppressed(r[..k + 1])
  }

  /** Exactly when the filter works as intended (the second of every two RESETs dropped,
      nothing else): every pair is close, however far apart the pairs are. */
  lemma PairsExactly(r: seq<int>)
    ensures AllClose(r) <==> forall k: nat :: k < |r| ==> (Dropped(r, k) <==> k % 2 == 1)
  {
    if AllClose(r) {
      forall k: nat | k < |r| ensures Dropped(r, k) <==> k % 2 == 1 {
        var p := r[..k + 1];
        forall i: nat | i < |p| / 2 ensures Close(p, i) {
          assert Close(r, i);
        }
      }
    } else {
      var i: nat :| i < |r| / 2 && !Close(r, i);
      var p := r[..2 * i + 1 + 1];
      assert !Close(p, i);
      assert !Dropped(r, 2 * i + 1);
    }
  }

  /** After one late partner nothing is ever dropped again. */
  lemma LateForever(r: seq<int>, i: nat, k: nat)
    requires i < |r| / 2 && !Close(r, i) && 2 * i + 1 <= k < |r|
    ensures !Dropped(r, k)
  {
    assert !Close(r[..k + 1], i);
  }

  function DroppedCount(r: seq<int>): nat {
    if r == [] then 0 else DroppedCount(r[..|r| - 1]) + if Suppressed(r) then 1 else 0
  }

  /** At least as many RESETs are published as dropped, for any prefix of any stream, and
      no two in a row are dropped. */
  lemma {:induction false} PublishedAtLeastDropped(r: seq<int>)
    ensures 2 * DroppedCount(r) <= |r|
    ensures Suppressed(r) ==> !Suppressed(r[..|r| - 1])
  {
    if |r| >= 2 {
      PublishedAtLeastDropped(r[..|r| - 2]);
      assert r[..|r| - 1][..|r| - 2] == r[..|r| - 2];
    } else if |r| == 1 {
      assert r[..0] == [];
    }
  }

  /** The RESETs of `r` that are not dropped, in order. */
  function Kept(r: seq<int>): seq<int> {
    if r == [] then []
    else Kept(r[..|r| - 1]) + (if Dropped(r, |r| - 1) then [] else [r[|r| - 1]])
  }

  /** RESET number `k`, if it is not dropped, is preceded by the ones kept before it. */
  lemma {:induction false} KeptAt(r: seq<int>, k: nat)
    requires k < |r| && !Dropped(r, k)
    ensures |Kept(r[..k])| < |Kept(r)| && Kept(r)[|Kept(r[..k])|] == r[k]
    ensures |Kept(r)| + DroppedCount(r) == |r|
  {
    var init := r[..|r| - 1];
    assert r[..|r| - 1 + 1] == r;
    KeptCount(r);
    if k < |init| {
      assert init[..k + 1] == r[..k + 1] && init[..k] == r[..k];
      KeptAt(init, k);
    }
  }

  lemma {:induction false} KeptCount(r: seq<int>)
    ensures |Kept(r)| + DroppedCount(r) == |r|
  {
    if r != [] {
      assert r[..|r| - 1 + 1] == r;
      KeptCount(r[..|r| - 1]);
    }
  }

  /** When every pair is close, the first of each pair is kept and nothing else. */
  lemma {:induction false} FirstsAreKept(r: seq<int>)
    requires AllClose(r)
    ensures |Kept(r)| == (|r| + 1) / 2 && forall j :: 0 <= j < |Kept(r)| ==> Kept(r)[j] == r[2 * j]
  {
    if r != [] {
      var init := r[..|r| - 1];
      assert r == init + [r[|r| - 1]] && r[..|r| - 1 + 1] == r;
      AllCloseSnoc(init, r[|r| - 1]);
      FirstsAreKept(init);
    }
  }

  /** The RESETs the loop hands on are exactly those that are not dropped. */
  lemma {:induction false} HandledResets(events: seq<Event>)
    ensures Resets(Handled(events)) == Kept(Resets(events))
  {
    if events != [] {
      var init := events[..|events| - 1];
      var last := events[|events| - 1];
      HandledResets(init);
      if IsReset(last) {
        var r := Resets(init) + [last.at];
        assert r[..|Resets(init)|] == Resets(init) && r[..|r| - 1 + 1] == r;
      }
      if Handled(events) != Handled(init) {
        assert (Handled(init) + [last])[..|Handled(init)|] == Handled(init);
      }
    }
  }

  // ---------- position by position ----------

  /** The time of the event, if it is a RESET, is the next of the RESETs. */
  lemma ResetsSnoc(events: seq<Event>, e: Event)
    ensures Resets(events + [e]) == if e.name == "RESET" then Resets(events) + [e.at] else Resets(events)
  {
    assert (events + [e])[..|events|] == events;
  }

  /** A RESET that is the last of `r` is dropped exactly when it is the second of two and every
      two RESETs so far, taken in pairs, came less than 100 000 000 ns apart. */
  lemma SuppressedIs(r: seq<int>)
    ensures Suppressed(r) <==>
            |r| > 0 && |r| % 2 == 0 && forall i :: 0 <= i < |r| / 2 ==> r[2 * i + 1] - r[2 * i] < 100_000_000
  {
    if Suppressed(r) {
      forall i | 0 <= i < |r| / 2 ensures r[2 * i + 1] - r[2 * i] < 100_000_000 {
        assert Close(r, i);
      }
    } else if |r| % 2 == 0 && |r| > 0 {
      var i: nat :| i < |r| / 2 && !Close(r, i);
      assert r[2 * i + 1] - r[2 * i] >= 100_000_000;
    }
  }

  /** What becomes of event number `n`: an empty event is passed over, a RESET is handed on
      unless it is a dropped one, anything else is handed on. */
  predicate HandedOn(events: seq<Event>, n: nat)
    requires n < |events|
  {
    && events[n].name != ""
    && (events[n].name == "RESET" ==>
          var r := Resets(events[..n + 1]);
          |r| % 2 == 1 || exists i :: 0 <= i < |r| / 2 && r[2 * i + 1] - r[2 * i] >= 100_000_000)
  }

  /** The numbers of the events handed on, in order. */
  function Positions(events: seq<Event>, n: nat): (r: seq<nat>)
    requires n <= |events|
    ensures forall i :: 0 <= i < |r| ==> r[i] < n
    ensures forall i, j :: 0 <= i < j < |r| ==> r[i] < r[j]
  {
    if n == 0 then []
    else if HandedOn(events, n - 1) then Positions(events, n - 1) + [n - 1] else Positions(events, n - 1)
  }

  lemma {:induction false} PositionsExactly(events: seq<Event>, n: nat, k: nat)
    requires n <= |events|
    ensures k in Positions(events, n) <==> k < n && HandedOn(events, k)
  {
    if n > 0 {
      PositionsExactly(events, n - 1, k);
    }
  }

  function At(events: seq<Event>, p: seq<nat>): seq<Event>
    requires forall i :: 0 <= i < |p| ==> p[i] < |events|
  {
    seq(|p|, i requires 0 <= i < |p| => events[p[i]])
  }

  lemma AtSnoc(events: seq<Event>, p: seq<nat>, n: nat)
    requires (forall i :: 0 <= i < |p| ==> p[i] < |events|) && n < |events|
    ensures At(events, p + [n]) == At(events, p) + [events[n]]
  {
  }

  lemma HandledSnoc(events: seq<Event>, n: nat)
    requires n < |events|
    ensures Handled(events[..n + 1]) == Handled(events[..n]) + if HandedOn(events, n) then [events[n]] else []
  {
    var some := events[..n + 1];
    assert some[..n] == events[..n] && some[n] == events[n] && some == events[..n] + [events[n]];
    ResetsSnoc(events[..n], events[n]);
    SuppressedIs(Resets(some));
  }

  lemma {:induction false} HandledPrefix(events: seq<Event>, n: nat)
    requires n <= |events|
    ensures Handled(events[..n]) == At(events, Positions(events, n))
  {
    if n > 0 {
      HandledPrefix(events, n - 1);
      HandledSnoc(events, n - 1);
      AtSnoc(events, Positions(events, n - 1), n - 1);
    }
  }

  /** The events handed to handleQemuEvent are exactly those at the positions where an event
      is neither empty nor a dropped RESET, in their order. */
  lemma HandledExactly(events: seq<Event>)
    ensures var p := Positions(events, |events|);
            && |Handled(events)| == |p| && (forall i :: 0 <= i < |p| ==> Handled(events)[i] == events[p[i]])
            && (forall k: nat :: k in p <==> k < |events| && HandedOn(events, k))
            && (forall i, j :: 0 <= i < j < |p| ==> p[i] < p[j])
  {
    HandledPrefix(events, |events|);
    assert events[..|events|] == events;
    forall k: nat ensures k in Positions(events, |events|) <==> k < |events| && HandedOn(events, k) {
      PositionsExactly(events, |events|, k);
    }
  }

  /** Whatever precedes it, an event that is neither empty nor a RESET is handed on at once,
      and an empty one never. */
  lemma OthersAreHandedOn(events: seq<Event>, e: Event)
    ensures e.name != "" && e.name != "RESET" ==> Handled(events + [e]) == Handled(events) + [e]
    ensures e.name == "" ==> Handled(events + [e]) == Handled(events)
  {
    assert (events + [e])[..|events|] == events;
  }

  // ---------- what the subscribers see ----------

  lemma MessagesSnoc(events: seq<Event>, e: Event)
    ensures Messages(events + [e]) == Messages(events) + if MessageOf(e).Some? then [MessageOf(e).value] else []
  {
    assert (events + [e])[..|events|] == events;
  }

  /** The `guest` flags of the events of one name, in order. */
  function Flags(events: seq<Event>, name: string): seq<bool> {
    if events == [] then []
    else
      var last := events[|events| - 1];
      Flags(events[..|events| - 1], name) + if last.name == name then [last.guest == Some(true)] else []
  }

  function Stops(messages: seq<Message>): seq<bool> {
    if messages == [] then []
    else
      var last := messages[|messages| - 1];
      Stops(messages[..|messages| - 1]) + if last.Stopped? then [last.guest] else []
  }

  function Restarts(messages: seq<Message>): seq<bool> {
    if messages == [] then []
    else
      var last := messages[|messages| - 1];
      Restarts(messages[..|messages| - 1]) + if last.Restarted? then [last.guest] else []
  }

  lemma StopsSnoc(messages: seq<Message>, m: Message)
    ensures Stops(messages + [m]) == Stops(messages) + if m.Stopped? then [m.guest] else []
    ensures Restarts(messages + [m]) == Restarts(messages) + if m.Restarted? then [m.guest] else []
  {
    assert (messages + [m])[..|messages|] == messages;
  }

  lemma MessageIs(e: Event)
    ensures e.name == "SHUTDOWN" ==> MessageOf(e) == Some(Stopped(e.guest == Some(true)))
    ensures e.name == "RESET" ==> MessageOf(e) == Some(Restarted(e.guest == Some(true)))
    ensures e.name != "SHUTDOWN" && e.name != "RESET" ==> MessageOf(e) == None
  {
    assert "SHUTDOWN"[0] != "RESET"[0];
  }

  lemma PublishedSnoc(events: seq<Event>, e: Event)
    ensures Stops(Messages(events + [e]))
         == Stops(Messages(events)) + if e.name == "SHUTDOWN" then [e.guest == Some(true)] else []
    ensures Restarts(Messages(events + [e]))
         == Restarts(Messages(events)) + if e.name == "RESET" then [e.guest == Some(true)] else []
  {
    MessageIs(e);
    MessagesSnoc(events, e);
    var m := MessageOf(e);
    if m.Some? {
      StopsSnoc(Messages(events), m.value);
    } else {
      assert Messages(events + [e]) == Messages(events);
    }
  }

  /** What becomes of the last event. */
  lemma HandledLast(init: seq<Event>, last: Event)
    ensures last.name == "SHUTDOWN" ==> Handled(init + [last]) == Handled(init) + [last]
    ensures Handled(init + [last]) == Handled(init) || Handled(init + [last]) == Handled(init) + [last]
  {
    assert (init + [last])[..|init|] == init;
    assert "SHUTDOWN"[0] != "RESET"[0];
  }

  /** No SHUTDOWN is lost, repeated or held back: the stops published are those of all
      SHUTDOWN events, in order. */
  lemma {:induction false} NoStopIsLost(events: seq<Event>)
    ensures Stops(Messages(Handled(events))) == Flags(events, "SHUTDOWN")
  {
    if events != [] {
      var init, last := events[..|events| - 1], events[|events| - 1];
      assert events == init + [last];
      NoStopIsLost(init);
      HandledLast(init, last);
      PublishedSnoc(Handled(init), last);
    }
  }

  /** A restart is published for exactly the RESETs that are not dropped. */
  lemma {:induction false} RestartsAreKept(events: seq<Event>)
    ensures |Restarts(Messages(Handled(events)))| == |Kept(Resets(events))|
    ensures |Restarts(Messages(Handled(events)))| + DroppedCount(Resets(events)) == |Flags(events, "RESET")|
  {
    RestartsOf(Handled(events));
    HandledResets(events);
    KeptCount(Resets(events));
    FlagsCount(events);
  }

  lemma {:induction false} RestartsOf(events: seq<Event>)
    ensures |Restarts(Messages(events))| == |Resets(events)|
  {
    if events != [] {
      var init, last := events[..|events| - 1], events[|events| - 1];
      RestartsOf(init);
      assert events == init + [last];
      PublishedSnoc(init, last);
    }
  }

  lemma {:induction false} FlagsCount(events: seq<Event>)
    ensures |Flags(events, "RESET")| == |Resets(events)|
  {
    if events != [] {
      FlagsCount(events[..|events| - 1]);
    }
  }
}

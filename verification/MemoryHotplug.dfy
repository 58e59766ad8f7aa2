/** SetMemory of driver/driver.go: growing the memory of a running machine by one
    backend object and one DIMM per call. */
module MemoryHotplug {
  import opened Text

  const WORD := 0x1_0000_0000_0000_0000     // sizes are unsigned 64-bit numbers

  datatype Dimm = Dimm(id: string, memdev: string, size: nat)

  /** QEMU's memory: the base size, the backend objects with their sizes, the plugged
      memory devices. */
  datatype Qemu = Qemu(base: nat, backends: map<string, nat>, dimms: seq<Dimm>)

  datatype Result = Ok | NotSupported | Failed

  /** A request and which of the monitor calls it makes get through. */
  datatype Call = Call(bytes: nat, summaryOk: bool, devicesOk: bool, backendOk: bool, deviceOk: bool, rollbackOk: bool)

  predicate Clean(c: Call) { c.summaryOk && c.devicesOk && c.backendOk && c.deviceOk }

  // ---------- identifiers ----------

  /** `highestIdx+1` on a 64-bit int. */
  function Succ(n: int): int { if n == MAX_INT then MIN_INT else n + 1 }

  predicate IsIndex(n: int) { 0 < n <= MAX_INT || n == MIN_INT }

  function MemId(n: int): string { "mem" + Itoa(n) }

  function DimmId(n: int): string { "dimm" + Itoa(n) }

  /** The number a device id contributes to the search: what follows "dimm". */
  function IndexOf(id: string): Option<int> {
    if |id| >= 4 && id[..4] == "dimm" then Atoi(id[4..]) else None
  }

  lemma IndexOfDimmId(n: nat)
    requires n <= MAX_INT
    ensures IndexOf(DimmId(n)) == Some(n)
  {
    AtoiOfItoa(n);
    assert DimmId(n)[..4] == "dimm" && DimmId(n)[4..] == Itoa(n);
  }

  lemma SignOfItoa(n: int)
    ensures Itoa(n) != [] && (Itoa(n)[0] == '-' <==> n < 0)
    ensures n < 0 ==> Itoa(n)[1..] == Dec(-n)
  {
  }

  lemma ItoaInjective(m: int, n: int)
    requires Itoa(m) == Itoa(n)
    ensures m == n
  {
    SignOfItoa(m);
    SignOfItoa(n);
    if m < 0 {
      PrintInjective(-m, -n, 10);
    } else {
      PrintInjective(m, n, 10);
    }
  }

  lemma MemIdInjective(m: int, n: int)
    requires MemId(m) == MemId(n)
    ensures m == n
  {
    assert MemId(m)[3..] == Itoa(m) && MemId(n)[3..] == Itoa(n);
    ItoaInjective(m, n);
  }

  // ---------- the search for the highest index ----------

  predicate HasDimm(dimms: seq<Dimm>, id: string) { exists i :: 0 <= i < |dimms| && dimms[i].id == id }

  function Max(a: int, b: int): int { if a < b then b else a }

  function Join2(h: nat, id: string): nat {
    var idx := IndexOf(id);
    if idx.Some? then Max(h, idx.value) else h
  }

  function Highest(dimms: seq<Dimm>): nat {
    if dimms == [] then 0 else Join2(Highest(dimms[..|dimms| - 1]), dimms[|dimms| - 1].id)
  }

  /** `h` is the largest index of the ids, or zero. */
  ghost predicate IsHighest(h: nat, ids: iset<string>) {
    && (forall id :: id in ids && IndexOf(id).Some? ==> IndexOf(id).value <= h)
    && (h > 0 ==> exists id :: id in ids && IndexOf(id) == Some(h))
    && h <= MAX_INT
  }

  ghost function IdsOf(devices: seq<string>): iset<string> { iset id | id in devices }

  ghost function Ids(dimms: seq<Dimm>): iset<string> { iset id | HasDimm(dimms, id) }

  lemma {:induction false} HighestIsHighest(dimms: seq<Dimm>)
    ensures IsHighest(Highest(dimms), Ids(dimms))
  {
    if dimms != [] {
      var init, last := dimms[..|dimms| - 1], dimms[|dimms| - 1];
      HighestIsHighest(init);
      forall id ensures id in Ids(dimms) <==> id in Ids(init) || id == last.id {
        SnocIds(init, last, id);
        assert dimms == init + [last];
      }
      AtoiRange(last.id);
    }
  }

  lemma SnocIds(init: seq<Dimm>, last: Dimm, id: string)
    ensures HasDimm(init + [last], id) <==> HasDimm(init, id) || id == last.id
  {
    var all := init + [last];
    assert all[|init|] == last;
    if HasDimm(init, id) {
      var i :| 0 <= i < |init| && init[i].id == id;
      assert all[i] == init[i];
    }
    if HasDimm(all, id) {
      var i :| 0 <= i < |all| && all[i].id == id;
      assert i < |init| ==> init[i].id == id;
    }
  }

  lemma AtoiRange(id: string)
    ensures IndexOf(id).Some? ==> IndexOf(id).value <= MAX_INT
  {
  }

  lemma IdsOfSnoc(devices: seq<string>, i: nat)
    requires i < |devices|
    ensures IdsOf(devices[..i + 1]) == IdsOf(devices[..i]) + iset{devices[i]}
  {
    assert devices[..i + 1] == devices[..i] + [devices[i]];
  }

  /** The loop over query-memory-devices, which may list the devices in any order. */
  method HighestIndex(devices: seq<string>, ghost dimms: seq<Dimm>) returns (highestIdx: nat)
    requires Listed(devices, dimms)
    ensures highestIdx == Highest(dimms)
  {
    highestIdx := 0;
    for i := 0 to |devices|
      invariant IsHighest(highestIdx, IdsOf(devices[..i]))
    {
      var idx := IndexOf(devices[i]);
      AtoiRange(devices[i]);
      if idx.Some? {
        highestIdx := Max(highestIdx, idx.value);
      }
      IdsOfSnoc(devices, i);
    }
    assert devices[..|devices|] == devices;
    assert IdsOf(devices) == Ids(dimms);
    HighestIsHighest(dimms);
  }

  ghost predicate Listed(devices: seq<string>, dimms: seq<Dimm>) {
    forall id :: id in devices <==> HasDimm(dimms, id)
  }

  /** No index is left: 9223372036854775807 is taken, and so is the negative one that
      follows it. */
  predicate Exhausted(q: Qemu) { Highest(q.dimms) == MAX_INT && HasDimm(q.dimms, DimmId(MIN_INT)) }

  function Next(q: Qemu): int { Succ(Highest(q.dimms)) }

  /** The device id chosen is new, unless the indices wrapped around before. */
  lemma NextIsFreshExactly(q: Qemu)
    ensures IsIndex(Next(q))
    ensures HasDimm(q.dimms, DimmId(Next(q))) <==> Exhausted(q)
  {
    HighestIsHighest(q.dimms);
    var n := Next(q);
    if n > 0 {
      IndexOfDimmId(n);
      assert DimmId(n) in Ids(q.dimms) ==> n <= Highest(q.dimms);
    }
  }

  // ---------- what one call does ----------

  function Hotplugged(dimms: seq<Dimm>): nat {
    if dimms == [] then 0 else Hotplugged(dimms[..|dimms| - 1]) + dimms[|dimms| - 1].size
  }

  function Sum(q: Qemu): nat { q.base + Hotplugged(q.dimms) }

  /** The sum as the driver computes it. */
  function Total(q: Qemu): nat { Sum(q) % WORD }

  function WithBackend(q: Qemu, id: string, size: nat): Qemu { q.(backends := q.backends[id := size]) }

  function WithDimm(q: Qemu, d: Dimm): Qemu { q.(dimms := q.dimms + [d]) }

  /** The new DIMM of a growth to `bytes`. */
  function NewDimm(q: Qemu, bytes: nat): Dimm
    requires bytes >= Total(q)
  {
    Dimm(DimmId(Next(q)), MemId(Next(q)), bytes - Total(q))
  }

  predicate Grows(q: Qemu, c: Call) { c.bytes > Total(q) }

  /** The backend of a growing call is accepted. */
  predicate GetsBackend(q: Qemu, c: Call) {
    Grows(q, c) && c.summaryOk && c.devicesOk && c.backendOk && MemId(Next(q)) !in q.backends
  }

  predicate GetsDimm(q: Qemu, c: Call) {
    GetsBackend(q, c) && c.deviceOk && !HasDimm(q.dimms, DimmId(Next(q)))
  }

  /** The DIMM is refused and then the backend cannot be removed. */
  predicate Leaks(q: Qemu, c: Call) { GetsBackend(q, c) && !GetsDimm(q, c) && !c.rollbackOk }

  /** A backend and then a DIMM, either of which may be refused, and the roll-back. */
  function Added(q: Qemu, memId: string, deviceId: string, size: nat, c: Call): (Qemu, Result) {
    var backed := c.backendOk && memId !in q.backends;
    if backed && c.deviceOk && !HasDimm(q.dimms, deviceId) then
      (WithDimm(WithBackend(q, memId, size), Dimm(deviceId, memId, size)), Ok)
    else if backed && !c.rollbackOk then (WithBackend(q, memId, size), Failed)
    else (q, Failed)
  }

  /** What a growing call gets done. */
  function Growth(q: Qemu, c: Call): (Qemu, Result)
    requires Grows(q, c)
  {
    Added(q, MemId(Next(q)), DimmId(Next(q)), c.bytes - Total(q), c)
  }

  function After(q: Qemu, c: Call): Qemu {
    if c.summaryOk && c.devicesOk && Grows(q, c) then Growth(q, c).0 else q
  }

  function ResultOf(q: Qemu, c: Call): Result {
    if !c.summaryOk then Failed
    else if c.bytes == Total(q) then Ok
    else if c.bytes < Total(q) then NotSupported
    else if c.devicesOk then Growth(q, c).1
    else Failed
  }

  // ---------- the driver's code ----------

  class Machine {
    var base: nat
    var backends: map<string, nat>
    var dimms: seq<Dimm>

    function State(): Qemu
      reads this
    {
      Qemu(base, backends, dimms)
    }

    constructor (q: Qemu)
      ensures State() == q
    {
      base, backends, dimms := q.base, q.backends, q.dimms;
    }

    /** object-add; an id already in use is refused. */
    method AddMemoryBackend(id: string, size: nat, through: bool) returns (ok: bool)
      modifies this`backends
      ensures ok == (through && id !in old(backends))
      ensures State() == if ok then WithBackend(old(State()), id, size) else old(State())
    {
      ok := through && id !in backends;
      if ok {
        backends := backends[id := size];
      }
    }

    /** device_add of a pc-dimm; an id already in use is refused. */
    method AddDevice(id: string, memdev: string, through: bool) returns (ok: bool)
      requires memdev in backends
      modifies this`dimms
      ensures ok == (through && !HasDimm(old(dimms), id))
      ensures State() == if ok then WithDimm(old(State()), Dimm(id, memdev, backends[memdev])) else old(State())
    {
      ok := through && !HasDimm(dimms, id);
      if ok {
        dimms := dimms + [Dimm(id, memdev, backends[memdev])];
      }
    }

    /** object-del */
    method RemoveMemoryBackend(id: string, through: bool) returns (ok: bool)
      requires id in backends
      modifies this`backends
      ensures ok == through
      ensures backends == if ok then old(backends) - {id} else old(backends)
    {
      ok := through;
      if ok {
        backends := backends - {id};
      }
    }

    /** Plugs the DIMM, or takes the new backend away again; `before` is what the
        backends were without it. */
    method PlugDimm(deviceId: string, memId: string, deviceOk: bool, rollbackOk: bool,
                    ghost before: map<string, nat>) returns (r: Result)
      requires memId !in before && memId in backends && backends == before[memId := backends[memId]]
      modifies this
      ensures base == old(base)
      ensures r == if deviceOk && !HasDimm(old(dimms), deviceId) then Ok else Failed
      ensures backends == if r != Ok && rollbackOk then before else old(backends)
      ensures dimms == if r == Ok then old(dimms) + [Dimm(deviceId, memId, backends[memId])] else old(dimms)
    {
      var ok := AddDevice(deviceId, memId, deviceOk);
      if !ok {
        ok := RemoveMemoryBackend(memId, rollbackOk);
        return Failed;
      }
      return Ok;
    }

    /** The backend and then the DIMM. */
    method AddPair(memId: string, deviceId: string, size: nat, c: Call) returns (r: Result)
      modifies this
      ensures (State(), r) == Added(old(State()), memId, deviceId, size, c)
    {
      ghost var before := backends;
      var ok := AddMemoryBackend(memId, size, c.backendOk);
      if !ok {
        return Failed;
      }
      r := PlugDimm(deviceId, memId, c.deviceOk, c.rollbackOk, before);
    }

    method Grow(c: Call, size: nat, index: int) returns (r: Result)
      requires Grows(State(), c) && c.summaryOk && c.devicesOk
      requires index == Next(State()) && size == c.bytes - Total(State())
      modifies this
      ensures State() == After(old(State()), c) && r == ResultOf(old(State()), c)
    {
      r := AddPair(MemId(index), DimmId(index), size, c);
    }

    /** query-memory-size-summary, added up as unsigned 64-bit numbers. */
    method QueryTotal() returns (total: nat)
      ensures total == Total(State())
    {
      total := (base + Hotplugged(dimms)) % WORD;
    }

    method SetMemory(c: Call, devices: seq<string>) returns (r: Result)
      requires Listed(devices, dimms)
      modifies this
      ensures State() == After(old(State()), c) && r == ResultOf(old(State()), c)
    {
      if !c.summaryOk {
        return Failed;
      }
      var total := QueryTotal();
      if c.bytes == total {
        return Ok;
      }
      if c.bytes < total {
        return NotSupported;
      }
      if !c.devicesOk {
        return Failed;
      }
      var highestIdx := HighestIndex(devices, dimms);
      r := Grow(c, c.bytes - total, Succ(highestIdx));
    }
  }

  // ---------- one call ----------

  /** A successful call leaves the machine with the memory asked for and touches nothing
      that was there. */
  lemma SuccessReachesRequest(q: Qemu, c: Call)
    requires c.bytes < WORD && ResultOf(q, c) == Ok
    ensures Total(After(q, c)) == c.bytes
    ensures Sum(q) < WORD ==> Sum(After(q, c)) == c.bytes
    ensures After(q, c).base == q.base && q.dimms <= After(q, c).dimms
    ensures forall id :: id in q.backends ==> id in After(q, c).backends && After(q, c).backends[id] == q.backends[id]
  {
    if GetsDimm(q, c) {
      var d := NewDimm(q, c.bytes);
      assert (q.dimms + [d])[..|q.dimms|] == q.dimms;
      AddToTotal(Sum(q), c.bytes);
    }
  }

  lemma AddToTotal(sum: nat, bytes: nat)
    requires sum % WORD <= bytes < WORD
    ensures (sum + (bytes - sum % WORD)) % WORD == bytes
  {
    var k := sum / WORD;
    assert sum + (bytes - sum % WORD) == k * WORD + bytes;
    assert (k * WORD + bytes) / WORD == k;
  }

  /** A call that reports an error leaves everything as it was, unless its roll-back failed. */
  lemma ErrorRestoresExactly(q: Qemu, c: Call)
    requires ResultOf(q, c) != Ok
    ensures After(q, c) == q <==> !Leaks(q, c)
  {
    if Leaks(q, c) {
      assert MemId(Next(q)) in After(q, c).backends;
    }
  }

  /** The ids are "mem" and "dimm" and the number that follows the highest in use. */
  lemma NewDimmIs(q: Qemu, c: Call)
    requires GetsDimm(q, c)
    ensures var n := if Highest(q.dimms) == 9223372036854775807 then -9223372036854775808 else Highest(q.dimms) + 1;
            && After(q, c).dimms == q.dimms + [Dimm("dimm" + Itoa(n), "mem" + Itoa(n), c.bytes - Total(q))]
            && After(q, c).backends == q.backends["mem" + Itoa(n) := c.bytes - Total(q)]
            && After(q, c).base == q.base
  {
  }

  /** Only an id that is "dimm" and a number counts for the search. */
  lemma IndexIs(rest: string)
    ensures IndexOf("dimm" + rest) == Atoi(rest)
    ensures forall id: string :: !("dimm" <= id) ==> IndexOf(id) == None
  {
    assert ("dimm" + rest)[..4] == "dimm" && ("dimm" + rest)[4..] == rest;
  }

  /** The answer, for every combination of failing calls. */
  lemma ResultIs(q: Qemu, c: Call)
    ensures !c.summaryOk ==> ResultOf(q, c) == Failed && After(q, c) == q
    ensures c.summaryOk && c.bytes == (q.base + Hotplugged(q.dimms)) % 0x1_0000_0000_0000_0000 ==>
              ResultOf(q, c) == Ok && After(q, c) == q
    ensures c.summaryOk && c.bytes < (q.base + Hotplugged(q.dimms)) % 0x1_0000_0000_0000_0000 ==>
              ResultOf(q, c) == NotSupported && After(q, c) == q
    ensures c.summaryOk && c.bytes > (q.base + Hotplugged(q.dimms)) % 0x1_0000_0000_0000_0000 ==>
              (ResultOf(q, c) == Ok
               <==> && c.devicesOk && c.backendOk && c.deviceOk && "mem" + Itoa(Next(q)) !in q.backends
                    && !HasDimm(q.dimms, "dimm" + Itoa(Next(q))))
              && (ResultOf(q, c) != Ok ==> ResultOf(q, c) == Failed)
  {
  }

  /** After a refused DIMM the backend stays exactly when it cannot be deleted. */
  lemma RollbackIs(q: Qemu, c: Call)
    requires c.summaryOk && c.devicesOk && Grows(q, c) && ResultOf(q, c) == Failed
    ensures After(q, c).dimms == q.dimms && After(q, c).base == q.base
    ensures c.backendOk && "mem" + Itoa(Next(q)) !in q.backends && !c.rollbackOk ==>
              After(q, c).backends == q.backends["mem" + Itoa(Next(q)) := c.bytes - Total(q)]
    ensures c.rollbackOk || !c.backendOk || "mem" + Itoa(Next(q)) in q.backends ==>
              After(q, c).backends == q.backends
  {
  }

  // ---------- runs ----------

  function Run(q: Qemu, t: seq<Call>): Qemu
    decreases t
  {
    if t == [] then q else Run(After(q, t[0]), t[1..])
  }

  predicate Leaked(q: Qemu, t: seq<Call>)
    decreases t
  {
    t != [] && (Leaks(q, t[0]) || Leaked(After(q, t[0]), t[1..]))
  }

  predicate Owned(q: Qemu, n: int) {
    exists i :: 0 <= i < |q.dimms| && q.dimms[i].id == DimmId(n) && q.dimms[i].memdev == MemId(n)
  }

  /** Every backend `memN` has its `dimmN`. */
  ghost predicate Paired(q: Qemu) {
    forall n :: IsIndex(n) && MemId(n) in q.backends ==> Owned(q, n)
  }

  /** The next backend id is taken although the next device id is not. */
  predicate Stuck(q: Qemu) { MemId(Next(q)) in q.backends }

  lemma PairedStep(q: Qemu, c: Call)
    requires Paired(q) && !Leaks(q, c)
    ensures Paired(After(q, c))
  {
    if GetsDimm(q, c) {
      var r := After(q, c);
      forall n | IsIndex(n) && MemId(n) in r.backends ensures Owned(r, n) {
        if n == Next(q) {
          assert r.dimms[|q.dimms|] == NewDimm(q, c.bytes);
        } else {
          if MemId(n) == MemId(Next(q)) {
            MemIdInjective(n, Next(q));
          }
          var i :| 0 <= i < |q.dimms| && q.dimms[i].id == DimmId(n) && q.dimms[i].memdev == MemId(n);
          assert r.dimms[i] == q.dimms[i];
        }
      }
    }
  }

  /** While no roll-back has failed, every backend has its DIMM. */
  lemma {:induction false} PairedRun(q: Qemu, t: seq<Call>)
    requires Paired(q) && !Leaked(q, t)
    ensures Paired(Run(q, t))
    decreases t
  {
    if t != [] {
      PairedStep(q, t[0]);
      PairedRun(After(q, t[0]), t[1..]);
    }
  }

  /** Then neither id of a new pair is ever taken, until the indices are exhausted. */
  lemma PairedNeverCollides(q: Qemu)
    requires Paired(q)
    ensures !Exhausted(q) ==> !Stuck(q) && !HasDimm(q.dimms, DimmId(Next(q)))
  {
    NextIsFreshExactly(q);
  }

  /** A leaked backend takes the very id that the next call will choose. */
  lemma LeakSticks(q: Qemu, c: Call)
    requires Leaks(q, c)
    ensures Stuck(After(q, c)) && Next(After(q, c)) == Next(q)
  {
  }

  /** From then on no call changes anything, and none that should grow the memory succeeds. */
  lemma {:induction false} StuckForever(q: Qemu, t: seq<Call>)
    requires Stuck(q)
    ensures Run(q, t) == q && !Leaked(q, t)
    ensures forall c: Call :: Grows(q, c) ==> ResultOf(q, c) == Failed
    decreases t
  {
    if t != [] {
      StuckForever(q, t[1..]);
    }
  }

  /** Deleting the leaked object by hand brings back the state before the call. */
  lemma RemovingUnsticks(q: Qemu, c: Call)
    requires Leaks(q, c)
    ensures var r := After(q, c); r.(backends := r.backends - {MemId(Next(q))}) == q
  {
  }

  lemma {:induction false} LeakedIsStuck(q: Qemu, t: seq<Call>)
    requires Leaked(q, t)
    ensures Stuck(Run(q, t))
    decreases t
  {
    if Leaks(q, t[0]) {
      LeakSticks(q, t[0]);
      StuckForever(After(q, t[0]), t[1..]);
    } else {
      LeakedIsStuck(After(q, t[0]), t[1..]);
    }
  }

  /** After any history of calls, a growth that meets no failing monitor call fails exactly
      when an earlier roll-back failed or the indices are exhausted. */
  lemma GrowthFailsExactly(q: Qemu, t: seq<Call>, c: Call)
    requires Paired(q)
    requires Clean(c) && Grows(Run(q, t), c)
    ensures ResultOf(Run(q, t), c) != Ok <==> Leaked(q, t) || Exhausted(Run(q, t))
  {
    var r := Run(q, t);
    NextIsFreshExactly(r);
    if Leaked(q, t) {
      LeakedIsStuck(q, t);
    } else {
      PairedRun(q, t);
      if !Exhausted(r) {
        PairedNeverCollides(r);
      }
    }
  }

  /** Over any history the sizes never wrap, so the driver's total is the real one. */
  lemma {:induction false} TotalIsReal(q: Qemu, t: seq<Call>)
    requires Sum(q) < WORD && forall i :: 0 <= i < |t| ==> t[i].bytes < WORD
    ensures Total(Run(q, t)) == Sum(Run(q, t)) < WORD && Sum(q) <= Sum(Run(q, t))
    decreases t
  {
    if t != [] {
      if GetsDimm(q, t[0]) {
        SuccessReachesRequest(q, t[0]);
      }
      TotalIsReal(After(q, t[0]), t[1..]);
    }
  }
}

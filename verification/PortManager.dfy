/**
 The port allocator: a state over free, used and reserved ports with the context
 objects that the used and the reserved table share, and the manager class that
 implements it. `C` is the identity of a context object.
 */
module PortManager {
  import opened Options
  import opened PortRanges

  const MIN_PORT := 1
  const MAX_PORT := 65535
  const MAX_TRIES := 5
  const RESERVED_FOR := 24 * 3600 * 1_000_000_000 // MaxPortReservedDuration, in nanoseconds

  datatype Ctx = Ctx(name: string, port: int, closed: bool, updated: int)

  datatype State<C> = State(
    free: set<int>,
    used: map<int, C>,
    reserved: map<string, C>,
    ctx: map<C, Ctx>)

  datatype Outcome = Port(port: int) | NoAvailablePort | PortUnavailable | PortAlreadyUsed | PortNotAllowed

  /** markPortAcquiredLocked. */
  function Mark<C>(s: State<C>, name: string, port: int, now: int, c: C): State<C> {
    State(s.free - {port}, s.used[port := c], s.reserved[name := c], s.ctx[c := Ctx(name, port, false, now)])
  }

  /** The first port the probe accepts among the first few that iteration happens to visit. */
  function FirstAccepted(order: seq<int>, probe: int -> bool, tries: nat): Option<int> {
    if order == [] || tries == 0 then None
    else if probe(order[0]) then Some(order[0])
    else FirstAccepted(order[1..], probe, tries - 1)
  }

  /** The port a request ends up marking, if any. */
  function Choice<C>(s: State<C>, name: string, port: int, probe: int -> bool, order: seq<int>): Option<int> {
    if port != 0 then (if port in s.free && probe(port) then Some(port) else None)
    else if name in s.reserved && s.reserved[name] in s.ctx && probe(s.ctx[s.reserved[name]].port)
    then Some(s.ctx[s.reserved[name]].port)
    else FirstAccepted(order, probe, MAX_TRIES)
  }

  /** Whether the choice came from the reservation of the name. */
  predicate FromReservation<C>(s: State<C>, name: string, port: int, probe: int -> bool) {
    port == 0 && name in s.reserved && s.reserved[name] in s.ctx && probe(s.ctx[s.reserved[name]].port)
  }

  /** Manager.Acquire. Port 0 picked off the free ports is marked and yet reported as a failure. */
  function AcquireResult<C>(s: State<C>, name: string, port: int, now: int, probe: int -> bool, order: seq<int>, c: C)
    : (State<C>, Outcome)
  {
    match Choice(s, name, port, probe, order)
    case Some(p) =>
      (Mark(s, name, p, now, c),
       if port == 0 && p == 0 && !FromReservation(s, name, port, probe) then NoAvailablePort else Port(p))
    case None =>
      (s, if port == 0 then NoAvailablePort
          else if port in s.free then PortUnavailable
          else if port in s.used then PortAlreadyUsed
          else PortNotAllowed)
  }

  /** Manager.Release. */
  function AfterRelease<C>(s: State<C>, port: int, now: int): State<C> {
    if port !in s.used || s.used[port] !in s.ctx then s
    else
      var c := s.used[port];
      s.(free := s.free + {port}, used := s.used - {port}, ctx := s.ctx[c := s.ctx[c].(closed := true, updated := now)])
  }

  predicate Expired(x: Ctx, now: int) {
    x.closed && now - x.updated > RESERVED_FOR
  }

  /** cleanReservedPortsOnce. */
  function AfterSweep<C>(s: State<C>, now: int): State<C> {
    s.(reserved := map n | n in s.reserved && !(s.reserved[n] in s.ctx && Expired(s.ctx[s.reserved[n]], now)) :: s.reserved[n])
  }

  // ---- what every run keeps ----

  predicate UsedOk<C>(s: State<C>, port: int)
    requires port in s.used
  {
    s.used[port] in s.ctx && s.ctx[s.used[port]].port == port && !s.ctx[s.used[port]].closed
  }

  predicate ReservedOk<C>(s: State<C>, name: string, allowed: set<int>)
    requires name in s.reserved
  {
    s.reserved[name] in s.ctx && s.ctx[s.reserved[name]].name == name && s.ctx[s.reserved[name]].port in allowed
  }

  predicate Inv<C>(s: State<C>, allowed: set<int>) {
    && s.free !! s.used.Keys && s.free + s.used.Keys == allowed
    && (forall p | p in s.used :: UsedOk(s, p))
    && (forall n | n in s.reserved :: ReservedOk(s, n, allowed))
  }

  datatype Op<C> =
    | Get(name: string, port: int, now: int, probe: int -> bool, order: seq<int>, c: C)
    | Put(port: int, now: int)
    | Sweep(now: int)

  /** A request allocates a new context, and iteration visits only free ports. */
  ghost predicate Legal<C>(s: State<C>, op: Op<C>) {
    op.Get? ==> op.c !in s.ctx && forall i | 0 <= i < |op.order| :: op.order[i] in s.free
  }

  ghost function Apply<C>(s: State<C>, op: Op<C>): State<C> {
    match op
    case Get(name, port, now, probe, order, c) => AcquireResult(s, name, port, now, probe, order, c).0
    case Put(port, now) => AfterRelease(s, port, now)
    case Sweep(now) => AfterSweep(s, now)
  }

  ghost predicate IsRun<C>(s: State<C>, run: seq<Op<C>>)
    decreases |run|
  {
    run == [] || (Legal(s, run[0]) && IsRun(Apply(s, run[0]), run[1..]))
  }

  ghost function Exec<C>(s: State<C>, run: seq<Op<C>>): State<C>
    decreases |run|
  {
    if run == [] then s else Exec(Apply(s, run[0]), run[1..])
  }

  function Fresh<C>(allowed: set<int>): State<C> {
    State(allowed, map[], map[], map[])
  }

  lemma {:induction false} FirstAcceptedIsOne(order: seq<int>, probe: int -> bool, tries: nat)
    ensures var r := FirstAccepted(order, probe, tries);
            if r.Some? then
              exists i | 0 <= i < |order| && i < tries ::
                order[i] == r.value && probe(r.value) && forall j | 0 <= j < i :: !probe(order[j])
            else forall i | 0 <= i < |order| && i < tries :: !probe(order[i])
  {
    if order != [] && tries > 0 {
      if probe(order[0]) {
        assert order[0] == FirstAccepted(order, probe, tries).value;
      } else {
        FirstAcceptedIsOne(order[1..], probe, tries - 1);
        var r := FirstAccepted(order[1..], probe, tries - 1);
        if r.Some? {
          var i :| 0 <= i < |order[1..]| && i < tries - 1 && order[1..][i] == r.value && probe(r.value)
                   && forall j | 0 <= j < i :: !probe(order[1..][j]);
          assert order[i + 1] == r.value;
          forall j | 0 <= j < i + 1 ensures !probe(order[j]) {
            assert j > 0 ==> order[j] == order[1..][j - 1];
          }
        } else {
          forall i | 0 <= i < |order| && i < tries ensures !probe(order[i]) {
            assert i > 0 ==> order[i] == order[1..][i - 1];
          }
        }
      }
    }
  }

  lemma StepKeeps<C>(s: State<C>, op: Op<C>, allowed: set<int>)
    requires Inv(s, allowed) && Legal(s, op)
    ensures Inv(Apply(s, op), allowed)
  {
    var s' := Apply(s, op);
    if op.Get? {
      FirstAcceptedIsOne(op.order, op.probe, MAX_TRIES);
      assert op.name in s.reserved ==> ReservedOk(s, op.name, allowed);
    }
    forall p | p in s'.used ensures UsedOk(s', p) {
      assert p in s.used ==> UsedOk(s, p);
    }
    forall n | n in s'.reserved ensures ReservedOk(s', n, allowed) {
      assert n in s.reserved ==> ReservedOk(s, n, allowed);
    }
  }

  /** Whatever is acquired, released and swept, every allowed port is free or used, and never both. */
  lemma {:induction false} FreeAndUsedPartition<C>(s: State<C>, run: seq<Op<C>>, allowed: set<int>)
    requires Inv(s, allowed) && IsRun(s, run)
    ensures Inv(Exec(s, run), allowed)
    decreases |run|
  {
    if run != [] {
      StepKeeps(s, run[0], allowed);
      FreeAndUsedPartition(Apply(s, run[0]), run[1..], allowed);
    }
  }

  /** In particular of a new manager, whose ports are all free. */
  lemma NewManagerPartition<C>(allowed: set<int>, run: seq<Op<C>>)
    requires IsRun(Fresh(allowed), run)
    ensures Inv(Exec(Fresh(allowed), run), allowed)
  {
    FreeAndUsedPartition(Fresh(allowed), run, allowed);
  }

  // ---- what each operation does ----

  /** A used port that is released is free, its context is closed at that time, and nothing else changes. */
  lemma ReleaseReleases<C>(s: State<C>, allowed: set<int>, port: int, now: int)
    requires Inv(s, allowed) && port in s.used
    ensures var s', c := AfterRelease(s, port, now), s.used[port];
            && port in s'.free && port !in s'.used && s'.reserved == s.reserved
            && Lookup(s'.ctx, c) == Some(Ctx(s.ctx[c].name, port, true, now))
            && (forall p | p != port :: (p in s'.free <==> p in s.free) && Lookup(s'.used, p) == Lookup(s.used, p))
            && (forall d | d in s.ctx && d != c :: Lookup(s'.ctx, d) == Some(s.ctx[d]))
  {
    assert UsedOk(s, port);
  }

  lemma OtherReleasesDoNothing<C>(s: State<C>, allowed: set<int>, port: int, now: int)
    requires Inv(s, allowed)
    ensures AfterRelease(s, port, now) == s <==> port !in s.used
  {
    if port in s.used {
      ReleaseReleases(s, allowed, port, now);
    }
  }

  /** Anybody can have a released port, if the probe accepts it. */
  lemma ReleasedPortIsGranted<C>(s: State<C>, allowed: set<int>, port: int, now: int, op: Op<C>)
    requires Inv(s, allowed) && port in s.used && port != 0 && op.Get? && op.port == port && op.probe(port)
    ensures AcquireResult(AfterRelease(s, port, now), op.name, port, op.now, op.probe, op.order, op.c).1 == Port(port)
  {
    ReleaseReleases(s, allowed, port, now);
  }

  /** A sweep drops exactly the reservations that were given up more than a day ago. */
  lemma SweepDropsExpired<C>(s: State<C>, allowed: set<int>, name: string, now: int)
    requires Inv(s, allowed) && name in s.reserved
    ensures var s', x := AfterSweep(s, now), s.ctx[s.reserved[name]];
            && Lookup(s'.reserved, name) ==
               (if x.closed && now - x.updated > 24 * 3600 * 1_000_000_000 then None else Some(s.reserved[name]))
            && s'.free == s.free && s'.used == s.used && s'.ctx == s.ctx
  {
    assert ReservedOk(s, name, allowed);
  }

  /** Why a request is refused: a specified port is taken, not allowed or not accepted; or no port was found. */
  lemma RefusalTellsWhy<C>(s: State<C>, op: Op<C>, allowed: set<int>)
    requires Inv(s, allowed) && op.Get? && Legal(s, op)
    ensures var r := AcquireResult(s, op.name, op.port, op.now, op.probe, op.order, op.c).1;
            if op.port != 0 then
              && (r.PortAlreadyUsed? <==> op.port in s.used) && (r.PortNotAllowed? <==> op.port !in allowed)
              && (r.PortUnavailable? <==> op.port in s.free && !op.probe(op.port)) && !r.NoAvailablePort?
            else
              && (r.Port? || r.NoAvailablePort?)
              && (FromReservation(s, op.name, 0, op.probe) ==> r == Port(s.ctx[s.reserved[op.name]].port))
              && (!FromReservation(s, op.name, 0, op.probe) && 0 !in allowed ==>
                    (r.NoAvailablePort? <==> forall i | 0 <= i < |op.order| && i < 5 :: !op.probe(op.order[i])))
  {
    FirstAcceptedIsOne(op.order, op.probe, MAX_TRIES);
  }

  // ---- reservations ----

  lemma {:induction false} ClosedStaysClosed<C>(s: State<C>, run: seq<Op<C>>, allowed: set<int>, c: C)
    requires Inv(s, allowed) && IsRun(s, run) && c in s.ctx && s.ctx[c].closed
    ensures c in Exec(s, run).ctx && Exec(s, run).ctx[c] == s.ctx[c]
    decreases |run|
  {
    if run != [] {
      var op := run[0];
      StepKeeps(s, op, allowed);
      assert op.Put? && op.port in s.used ==> UsedOk(s, op.port);
      ClosedStaysClosed(Apply(s, op), run[1..], allowed, c);
    }
  }

  /** In `run` the name marks no port, and nothing is swept later than `now`. */
  ghost predicate Quiet<C>(s: State<C>, run: seq<Op<C>>, name: string, now: int)
    decreases |run|
  {
    run == [] ||
    (var op := run[0];
     && (op.Get? && op.name == name ==> Choice(s, name, op.port, op.probe, op.order).None?)
     && (op.Sweep? ==> op.now <= now)
     && Quiet(Apply(s, op), run[1..], name, now))
  }

  lemma {:induction false} ReservationSurvives<C>(s: State<C>, run: seq<Op<C>>, allowed: set<int>, name: string, now: int)
    requires Inv(s, allowed) && IsRun(s, run) && name in s.reserved && Quiet(s, run, name, now)
    requires var c := s.reserved[name];
             c in Exec(s, run).ctx ==> !Expired(Exec(s, run).ctx[c], now)
    ensures var s' := Exec(s, run);
            && name in s'.reserved && s'.reserved[name] == s.reserved[name]
            && s'.reserved[name] in s'.ctx && s'.ctx[s'.reserved[name]].port == s.ctx[s.reserved[name]].port
    decreases |run|
  {
    assert ReservedOk(s, name, allowed);
    if run != [] {
      var op, c := run[0], s.reserved[name];
      StepKeeps(s, op, allowed);
      if op.Sweep? && s.ctx[c].closed {
        ClosedStaysClosed(s, run, allowed, c);
      }
      ReservationSurvives(Apply(s, op), run[1..], allowed, name, now);
    }
  }

  /** A name gets its last port back, whatever other names did, unless it was given up more than a day ago. */
  lemma LastPortComesBack<C>(s: State<C>, run: seq<Op<C>>, allowed: set<int>, first: Op<C>, again: Op<C>)
    requires Inv(s, allowed) && first.Get? && Legal(s, first)
    requires Choice(s, first.name, first.port, first.probe, first.order).Some?
    requires var s1 := Apply(s, first);
             var s2 := Exec(s1, run);
             && IsRun(s1, run) && again.Get? && again.name == first.name && again.port == 0
             && Quiet(s1, run, first.name, again.now)
             && first.c in s2.ctx && !Expired(s2.ctx[first.c], again.now)
             && again.probe(Choice(s, first.name, first.port, first.probe, first.order).value)
    ensures var s2 := Exec(Apply(s, first), run);
            AcquireResult(s2, again.name, 0, again.now, again.probe, again.order, again.c).1
              == Port(Choice(s, first.name, first.port, first.probe, first.order).value)
  {
    StepKeeps(s, first, allowed);
    ReservationSurvives(Apply(s, first), run, allowed, first.name, again.now);
  }

  // ---- what a request reports ----

  /** The port a request reports is allowed and accepted by the probe; a specified port is granted or nothing is. */
  lemma AcquiredPortIsSound<C>(s: State<C>, op: Op<C>, allowed: set<int>)
    requires Inv(s, allowed) && op.Get? && Legal(s, op)
    ensures var (s', r) := AcquireResult(s, op.name, op.port, op.now, op.probe, op.order, op.c);
            && (r.Port? ==> r.port in allowed && op.probe(r.port) && (op.port != 0 ==> r.port == op.port)
                            && s'.used.Keys == s.used.Keys + {r.port} && r.port !in s'.free)
            && (op.port != 0 ==> (r.Port? <==> op.port in s.free && op.probe(op.port)))
            && (r.Port? && (forall p | p in s.used :: !op.probe(p)) ==> r.port in s.free)
  {
    FirstAcceptedIsOne(op.order, op.probe, MAX_TRIES);
    assert op.name in s.reserved ==> ReservedOk(s, op.name, allowed);
  }

  /** A reported failure changes nothing, except that port 0 drawn off the free ports is lost to them. */
  lemma FailureIsSilent<C>(s: State<C>, op: Op<C>, allowed: set<int>)
    requires Inv(s, allowed) && op.Get? && Legal(s, op)
    ensures var (s', r) := AcquireResult(s, op.name, op.port, op.now, op.probe, op.order, op.c);
            && (!r.Port? && s' != s <==>
                  op.port == 0 && !FromReservation(s, op.name, 0, op.probe)
                  && FirstAccepted(op.order, op.probe, MAX_TRIES) == Some(0))
            && (0 !in allowed && !r.Port? ==> s' == s)
  {
    FirstAcceptedIsOne(op.order, op.probe, MAX_TRIES);
    assert op.name in s.reserved ==> ReservedOk(s, op.name, allowed);
    assert Mark(s, op.name, 0, op.now, op.c).free != s.free || 0 !in s.free;
  }

  /** "0-10" is an acceptable range, and its port 0 can be lost to a request that reports failure. */
  lemma PortZeroIsLost()
    ensures var s: State<int> := Fresh({0});
            var (s', r) := AcquireResult(s, "p", 0, 0, p => true, [0], 7);
            r == NoAvailablePort && 0 !in s'.free && 0 in s'.used
  {
    assert FirstAccepted([0], p => true, MAX_TRIES) == Some(0);
  }

  // ---- the manager ----

  class PortCtx {
    var name: string
    var port: int
    var closed: bool
    var updateTime: int

    constructor (name: string, now: int)
      ensures Value() == Ctx(name, 0, false, now)
    {
      this.name, port, closed, updateTime := name, 0, false, now;
    }

    function Value(): Ctx
      reads this
    {
      Ctx(name, port, closed, updateTime)
    }
  }

  /** The loop over the free ports in Acquire: at most five of them are probed. */
  method TryFree(probe: int -> bool, order: seq<int>) returns (k: Option<int>)
    ensures k == FirstAccepted(order, probe, MAX_TRIES)
  {
    var count := 0;
    for i := 0 to |order|
      invariant count == i <= MAX_TRIES
      invariant FirstAccepted(order, probe, MAX_TRIES) == FirstAccepted(order[i..], probe, MAX_TRIES - i)
    {
      count := count + 1;
      if count > MAX_TRIES {
        return None;
      }
      if probe(order[i]) {
        return Some(order[i]);
      }
      assert order[i..][1..] == order[i + 1..];
    }
    return None;
  }

  lemma DenotesSnoc(ranges: seq<PortsRange>, i: nat)
    requires i < |ranges|
    ensures forall p :: Denotes(ranges[..i + 1], p) <==> Denotes(ranges[..i], p) || InRange(ranges[i], p)
  {
    forall p ensures Denotes(ranges[..i + 1], p) <==> Denotes(ranges[..i], p) || InRange(ranges[i], p) {
      if InRange(ranges[i], p) {
        assert InRange(ranges[..i + 1][i], p);
      }
      if Denotes(ranges[..i], p) {
        var j :| 0 <= j < i && InRange(ranges[..i][j], p);
        assert InRange(ranges[..i + 1][j], p);
      }
      if Denotes(ranges[..i + 1], p) {
        var j :| 0 <= j < i + 1 && InRange(ranges[..i + 1][j], p);
        assert j < i ==> InRange(ranges[..i][j], p);
      }
    }
  }

  class Manager {
    var reservedPorts: map<string, PortCtx>
    var usedPorts: map<int, PortCtx>
    var freePorts: set<int>
    ghost var made: set<PortCtx> // every context marked so far

    ghost predicate Valid()
      reads this
    {
      reservedPorts.Values <= made && usedPorts.Values <= made
    }

    ghost function View(): State<PortCtx>
      reads this, made
    {
      State(freePorts, usedPorts, reservedPorts, map c | c in made :: c.Value())
    }

    /** Every allowed port starts free; no list at all allows every port number there is. */
    constructor (allowPorts: seq<PortsRange>)
      ensures Valid() && View() == Fresh(freePorts)
      ensures forall p :: p in freePorts <==>
                          if allowPorts == [] then MIN_PORT <= p <= MAX_PORT else Denotes(allowPorts, p)
    {
      reservedPorts, usedPorts, freePorts, made := map[], map[], {}, {};
      new;
      if |allowPorts| > 0 {
        for i := 0 to |allowPorts|
          invariant Valid() && View() == Fresh(freePorts)
          invariant forall p :: p in freePorts <==> Denotes(allowPorts[..i], p)
        {
          var pair := allowPorts[i];
          DenotesSnoc(allowPorts, i);
          if pair.single > 0 {
            freePorts := freePorts + {pair.single};
          } else {
            AddRange(pair.start, pair.end);
          }
        }
        assert allowPorts[..|allowPorts|] == allowPorts;
      } else {
        AddRange(MIN_PORT, MAX_PORT);
      }
    }

    method AddRange(lo: int, hi: int)
      modifies this`freePorts
      ensures forall p :: p in freePorts <==> p in old(freePorts) || lo <= p <= hi
    {
      var i := lo;
      while i <= hi
        invariant lo <= i && (i <= hi + 1 || i == lo)
        invariant forall p :: p in freePorts <==> p in old(freePorts) || lo <= p < i
        decreases hi - i + 1
      {
        freePorts := freePorts + {i};
        i := i + 1;
      }
    }

    /** `order` is the order in which this range over freePorts visits them; `probe` is the operating system's answer. */
    method Acquire(name: string, port: int, now: int, probe: int -> bool, order: seq<int>)
      returns (r: Outcome, ghost c: PortCtx)
      requires Valid() && (forall i | 0 <= i < |order| :: order[i] in freePorts)
      modifies this
      ensures Valid() && fresh(c) && (View(), r) == AcquireResult(old(View()), name, port, now, probe, order, c)
    {
      var portCtx := new PortCtx(name, now);
      c := portCtx;
      if port == 0 && name in reservedPorts {
        var ctx := reservedPorts[name];
        if probe(ctx.port) {
          portCtx.port := ctx.port;
          MarkAcquired(name, ctx.port, portCtx);
          return Port(ctx.port), c;
        }
      }
      if port == 0 {
        var k := TryFree(probe, order);
        var realPort := 0;
        if k.Some? {
          realPort := k.value;
          portCtx.port := realPort;
          MarkAcquired(name, realPort, portCtx);
        }
        if realPort == 0 {
          return NoAvailablePort, c;
        }
        return Port(realPort), c;
      } else if port in freePorts {
        if probe(port) {
          portCtx.port := port;
          MarkAcquired(name, port, portCtx);
          return Port(port), c;
        }
        return PortUnavailable, c;
      } else if port in usedPorts {
        return PortAlreadyUsed, c;
      } else {
        return PortNotAllowed, c;
      }
    }

    method MarkAcquired(name: string, port: int, portCtx: PortCtx)
      requires Valid() && portCtx !in made && portCtx.name == name && portCtx.port == port && !portCtx.closed
      modifies this
      ensures Valid() && View() == Mark(old(View()), name, port, portCtx.updateTime, portCtx)
    {
      usedPorts := usedPorts[port := portCtx];
      reservedPorts := reservedPorts[name := portCtx];
      freePorts := freePorts - {port};
      made := made + {portCtx};
    }

    method Release(port: int, now: int)
      requires Valid()
      modifies this, made
      ensures Valid() && View() == AfterRelease(old(View()), port, now)
    {
      if port in usedPorts {
        var ctx := usedPorts[port];
        freePorts := freePorts + {port};
        usedPorts := usedPorts - {port};
        ctx.closed := true;
        ctx.updateTime := now;
      }
    }

    method CleanReservedPortsOnce(now: int)
      requires Valid()
      modifies this`reservedPorts
      ensures Valid() && View() == AfterSweep(old(View()), now)
    {
      var names := reservedPorts.Keys;
      while names != {}
        invariant names <= reservedPorts.Keys <= old(reservedPorts).Keys
        invariant forall n | n in reservedPorts :: reservedPorts[n] == old(reservedPorts)[n]
        invariant forall n | n in old(reservedPorts) && n !in names ::
                    n in reservedPorts <==> !Expired(old(reservedPorts)[n].Value(), now)
        decreases names
      {
        var n :| n in names;
        var ctx := reservedPorts[n];
        if ctx.closed && now - ctx.updateTime > RESERVED_FOR {
          reservedPorts := reservedPorts - {n};
        }
        names := names - {n};
      }
    }
  }
}

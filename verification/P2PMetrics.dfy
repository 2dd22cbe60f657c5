/**
 * Reports of peer-to-peer traffic: a provider's counters, the periodic report of what changed,
 * and the server's counters that the reports are added to by handlers running side by side.
 */
module P2PMetrics {
  import opened Options

  /** A report of changes, and likewise the counters they add up to. */
  datatype Msg = Msg(conns: int, inn: int, out: int)

  const ZERO := Msg(0, 0, 0)
  const UDP_IDLE_TIMEOUT := 15_000_000_000

  function Plus(a: Msg, b: Msg): Msg {
    Msg(a.conns + b.conns, a.inn + b.inn, a.out + b.out)
  }

  function Sum(s: seq<Msg>): Msg {
    if s == [] then ZERO else Plus(Sum(s[..|s| - 1]), s[|s| - 1])
  }

  function Total(s: seq<int>): int {
    if s == [] then 0 else Total(s[..|s| - 1]) + s[|s| - 1]
  }

  // ---- the provider ----

  /** Where the reporting goroutine stands in a flush: the loads are separate. */
  datatype Phase = Waiting | HasTcp(c: int) | HasConns(c: int) | HasIn(c: int, i: int)

  datatype Life = Alive | Zeroing | Final | Ended

  datatype Client = Client(tcp: int, udp: int, inn: int, out: int, last: Msg, phase: Phase, life: Life)

  function UdpActive(udp: int, now: int): int {
    if udp != 0 && now - udp < UDP_IDLE_TIMEOUT then 1 else 0
  }

  function Change(last: Msg, now: Msg): Msg {
    Msg(now.conns - last.conns, now.inn - last.inn, now.out - last.out)
  }

  /** The end of a flush: the change since the last report, if there is any. */
  function Flushed(last: Msg, now: Msg): (Msg, Option<Msg>) {
    var d := Change(last, now);
    if d == ZERO then (last, None) else (now, Some(d))
  }

  // ---- the server ----

  /** One CloseConnection: the counter stops at zero. */
  function Closed(conns: int): int {
    if conns > 0 then conns - 1 else conns
  }

  /** handleProxyMetrics run by itself. */
  function Applied(server: Msg, m: Msg): Msg {
    Msg(if m.conns >= 0 || server.conns + m.conns >= 0 then server.conns + m.conns else 0,
        if m.inn > 0 then server.inn + m.inn else server.inn,
        if m.out > 0 then server.out + m.out else server.out)
  }

  function AppliedAll(server: Msg, s: seq<Msg>): Msg {
    if s == [] then server else Applied(AppliedAll(server, s[..|s| - 1]), s[|s| - 1])
  }

  // ---- both, over their steps ----

  /**
   * open is the number of streams that are open; reports are all that were sent, in order; flight are those
   * not yet handled; a handler holds the connections it has still to open (or, below zero, to close).
   */
  datatype State = State(c: Client, open: nat, reports: seq<Msg>, flight: seq<Msg>, handlers: seq<int>, lost: Msg,
                         server: Msg, swallowed: nat, relay: nat)

  datatype Step =
    | TcpOpen | TcpClose | Udp(now: int) | Read(n: int) | Write(n: int)
    | StoreTcp | StoreUdp
    | LoadTcp | LoadUdp(now: int) | LoadIn | LoadOut(sent: bool)
    | Deliver(i: nat, known: bool) | Unit(j: nat)
    | RelayOpen | RelayClose

  const INIT := State(Client(0, 0, 0, 0, ZERO, Waiting, Alive), 0, [], [], [], ZERO, ZERO, 0, 0)

  predicate Enabled(s: State, step: Step) {
    match step
    case TcpClose => s.open > 0
    case Read(n) => n > 0
    case Write(n) => n > 0
    case StoreTcp => s.c.life.Alive? && s.c.phase.Waiting?
    case StoreUdp => s.c.life.Zeroing?
    case LoadTcp => s.c.phase.Waiting? && (s.c.life.Alive? || s.c.life.Final?)
    case LoadUdp(now) => s.c.phase.HasTcp?
    case LoadIn => s.c.phase.HasConns?
    case LoadOut(sent) => s.c.phase.HasIn?
    case Deliver(i, known) => i < |s.flight|
    case Unit(j) => j < |s.handlers| && s.handlers[j] != 0
    case RelayClose => s.relay > 0
    case TcpOpen => true
    case Udp(now) => true
    case RelayOpen => true
  }

  function Report(s: State, r: (Msg, Option<Msg>), sent: bool): State {
    var c := s.c.(last := r.0, phase := Waiting, life := if s.c.life.Final? then Ended else s.c.life);
    match r.1
    case None => s.(c := c)
    case Some(m) =>
      if sent then s.(c := c, reports := s.reports + [m], flight := s.flight + [m])
      else s.(c := c, reports := s.reports + [m], lost := Plus(s.lost, m))
  }

  /** A handler starts on a report: traffic at once, connections one by one; an unknown proxy's report is dropped. */
  function Handle(s: State, i: nat, known: bool): State
    requires i < |s.flight|
  {
    var m, rest := s.flight[i], s.flight[..i] + s.flight[i + 1..];
    if !known then s.(flight := rest, lost := Plus(s.lost, m))
    else s.(flight := rest, handlers := s.handlers + [m.conns], server := Applied(s.server, m.(conns := 0)))
  }

  function OneConnection(s: State, j: nat): State
    requires j < |s.handlers| && s.handlers[j] != 0
  {
    var d := s.handlers[j];
    if d > 0 then s.(handlers := s.handlers[j := d - 1], server := s.server.(conns := s.server.conns + 1))
    else s.(handlers := s.handlers[j := d + 1], server := s.server.(conns := Closed(s.server.conns)),
            swallowed := if s.server.conns > 0 then s.swallowed else s.swallowed + 1)
  }

  function Next(s: State, step: Step): State
    requires Enabled(s, step)
  {
    var c := s.c;
    match step
    case TcpOpen => s.(c := c.(tcp := c.tcp + 1), open := s.open + 1)
    case TcpClose => s.(c := c.(tcp := c.tcp - 1), open := s.open - 1)
    case Udp(now) => s.(c := c.(udp := now))
    case Read(n) => s.(c := c.(inn := c.inn + n))
    case Write(n) => s.(c := c.(out := c.out + n))
    case StoreTcp => s.(c := c.(tcp := 0, life := Zeroing))
    case StoreUdp => s.(c := c.(udp := 0, life := Final))
    case LoadTcp => s.(c := c.(phase := HasTcp(c.tcp)))
    case LoadUdp(now) => s.(c := c.(phase := HasConns(c.phase.c + UdpActive(c.udp, now))))
    case LoadIn => s.(c := c.(phase := HasIn(c.phase.c, c.inn)))
    case LoadOut(sent) => Report(s, Flushed(c.last, Msg(c.phase.c, c.phase.i, c.out)), sent)
    case Deliver(i, known) => Handle(s, i, known)
    case Unit(j) => OneConnection(s, j)
    case RelayOpen => s.(server := s.server.(conns := s.server.conns + 1), relay := s.relay + 1)
    case RelayClose =>
      s.(server := s.server.(conns := Closed(s.server.conns)), relay := s.relay - 1,
         swallowed := if s.server.conns > 0 then s.swallowed else s.swallowed + 1)
  }

  predicate IsRun(s: State, run: seq<Step>)
    decreases |run|
  {
    run == [] || (Enabled(s, run[0]) && IsRun(Next(s, run[0]), run[1..]))
  }

  function Exec(s: State, run: seq<Step>): State
    requires IsRun(s, run)
    decreases |run|
  {
    if run == [] then s else Exec(Next(s, run[0]), run[1..])
  }

  ghost predicate Reachable(s: State) {
    exists run :: IsRun(INIT, run) && Exec(INIT, run) == s
  }

  lemma {:induction false} RunSplits(s: State, x: seq<Step>, y: seq<Step>)
    ensures IsRun(s, x + y) <==> IsRun(s, x) && IsRun(Exec(s, x), y)
    ensures IsRun(s, x + y) ==> Exec(s, x + y) == Exec(Exec(s, x), y)
    decreases |x|
  {
    if x == [] {
      assert x + y == y;
    } else {
      assert (x + y)[0] == x[0] && (x + y)[1..] == x[1..] + y;
      if Enabled(s, x[0]) {
        RunSplits(Next(s, x[0]), x[1..], y);
      }
    }
  }

  lemma StillReachable(s: State, run: seq<Step>)
    requires Reachable(s) && IsRun(s, run)
    ensures Reachable(Exec(s, run))
  {
    var before :| IsRun(INIT, before) && Exec(INIT, before) == s;
    RunSplits(INIT, before, run);
  }

  // ---- sums ----

  lemma {:induction false} SumRemove(s: seq<Msg>, i: nat)
    requires i < |s|
    ensures Sum(s) == Plus(Sum(s[..i] + s[i + 1..]), s[i])
  {
    var rest := s[..i] + s[i + 1..];
    if i == |s| - 1 {
      assert rest == s[..i];
    } else {
      SumRemove(s[..|s| - 1], i);
      assert s[..|s| - 1][..i] + s[..|s| - 1][i + 1..] == rest[..|rest| - 1];
    }
  }

  lemma {:induction false} TotalUpdate(s: seq<int>, j: nat, d: int)
    requires j < |s|
    ensures Total(s[j := d]) == Total(s) - s[j] + d
  {
    var t := s[j := d];
    if j == |s| - 1 {
      assert t[..j] == s[..j];
    } else {
      TotalUpdate(s[..|s| - 1], j, d);
      assert t[..|s| - 1] == s[..|s| - 1][j := d];
    }
  }

  lemma {:induction false} TotalOfZeros(s: seq<int>)
    requires forall j | 0 <= j < |s| :: s[j] == 0
    ensures Total(s) == 0
  {
    if s != [] {
      TotalOfZeros(s[..|s| - 1]);
    }
  }

  lemma SumSnoc(s: seq<Msg>, m: Msg)
    ensures Sum(s + [m]) == Plus(Sum(s), m)
  {
    assert (s + [m])[..|s|] == s;
  }

  lemma TotalSnoc(s: seq<int>, d: int)
    ensures Total(s + [d]) == Total(s) + d
  {
    assert (s + [d])[..|s|] == s;
  }

  // ---- what every run keeps ----

  /** Each counter of the server, with what is on its way or lost, is what the client last reported. */
  predicate Conserved(s: State) {
    && Sum(s.flight).conns + Total(s.handlers) + s.lost.conns + s.server.conns - s.swallowed == s.c.last.conns + s.relay
    && Sum(s.flight).inn + s.lost.inn + s.server.inn == s.c.last.inn
    && Sum(s.flight).out + s.lost.out + s.server.out == s.c.last.out
  }

  predicate Growing(s: State) {
    && 0 <= s.lost.inn && 0 <= s.lost.out && 0 <= s.server.conns && 0 <= s.server.inn && 0 <= s.server.out
    && s.c.last.inn <= s.c.inn && s.c.last.out <= s.c.out
    && (s.c.phase.HasIn? ==> s.c.last.inn <= s.c.phase.i <= s.c.inn)
    && (forall i | 0 <= i < |s.flight| :: s.flight[i].inn >= 0 && s.flight[i].out >= 0)
  }

  predicate Inv(s: State) {
    Conserved(s) && Growing(s)
  }

  lemma ReportKeeps(s: State, sent: bool)
    requires Inv(s) && Enabled(s, LoadOut(sent))
    ensures Inv(Next(s, LoadOut(sent)))
  {
    var r := Flushed(s.c.last, Msg(s.c.phase.c, s.c.phase.i, s.c.out));
    if r.1.Some? {
      SumSnoc(s.flight, r.1.value);
    }
  }

  lemma HandleKeeps(s: State, i: nat, known: bool)
    requires Inv(s) && i < |s.flight|
    ensures Inv(Handle(s, i, known))
  {
    SumRemove(s.flight, i);
    TotalSnoc(s.handlers, s.flight[i].conns);
  }

  lemma StepKeeps(s: State, step: Step)
    requires Inv(s) && Enabled(s, step)
    ensures Inv(Next(s, step))
  {
    if step.LoadOut? {
      ReportKeeps(s, step.sent);
    } else if step.Deliver? {
      HandleKeeps(s, step.i, step.known);
    } else if step.Unit? {
      var d := s.handlers[step.j];
      TotalUpdate(s.handlers, step.j, if d > 0 then d - 1 else d + 1);
    }
  }

  lemma {:induction false} RunKeeps(s: State, run: seq<Step>)
    requires Inv(s) && IsRun(s, run)
    ensures Inv(Exec(s, run))
    decreases |run|
  {
    if run != [] {
      StepKeeps(s, run[0]);
      RunKeeps(Next(s, run[0]), run[1..]);
    }
  }

  /** Conservation, whatever the order in which reports arrive and handlers interleave. */
  lemma ReportsAreConserved(s: State)
    requires Reachable(s)
    ensures Inv(s)
  {
    var run :| IsRun(INIT, run) && Exec(INIT, run) == s;
    RunKeeps(INIT, run);
  }

  /** Every report has reached the server and every handler is done. */
  predicate Drained(s: State) {
    s.flight == [] && s.lost == ZERO && forall j | 0 <= j < |s.handlers| :: s.handlers[j] == 0
  }

  /** The connections opened (1) and closed (-1) at the server's counter by a step, and along a run. */
  function Tick(s: State, step: Step): seq<int>
    requires Enabled(s, step)
  {
    match step
    case Unit(j) => [if s.handlers[j] > 0 then 1 else -1]
    case RelayOpen => [1]
    case RelayClose => [-1]
    case _ => []
  }

  function Ticks(s: State, run: seq<Step>): seq<int>
    requires IsRun(s, run)
    decreases |run|
  {
    if run == [] then [] else Tick(s, run[0]) + Ticks(Next(s, run[0]), run[1..])
  }

  /** A counter at n goes along the ticks without ever falling below zero. */
  predicate StaysUp(n: int, ticks: seq<int>)
    decreases |ticks|
  {
    n >= 0 && (ticks == [] || StaysUp(n + ticks[0], ticks[1..]))
  }

  lemma TickCounts(s: State, step: Step)
    requires Enabled(s, step) && s.server.conns >= 0
    ensures var n, t := Next(s, step), Tick(s, step);
            && n.server.conns >= 0
            && (t == [] ==> n.server.conns == s.server.conns && n.swallowed == s.swallowed)
            && (t != [] && s.server.conns + t[0] >= 0 ==>
                  n.server.conns == s.server.conns + t[0] && n.swallowed == s.swallowed)
            && (t != [] && s.server.conns + t[0] < 0 ==> n.swallowed == s.swallowed + 1)
  {
  }

  /** A close is swallowed exactly when the opens and closes, in the order they happen, take the counter below zero. */
  lemma {:induction false} SwallowedExactly(s: State, run: seq<Step>)
    requires IsRun(s, run) && s.server.conns >= 0
    ensures Exec(s, run).swallowed >= s.swallowed
    ensures Exec(s, run).swallowed == s.swallowed <==> StaysUp(s.server.conns, Ticks(s, run))
    decreases |run|
  {
    if run != [] {
      var n, t := Next(s, run[0]), Tick(s, run[0]);
      var rest := Ticks(n, run[1..]);
      TickCounts(s, run[0]);
      SwallowedExactly(n, run[1..]);
      if t == [] {
        assert t + rest == rest;
      } else {
        assert (t + rest)[0] == t[0] && (t + rest)[1..] == rest;
      }
    }
  }

  /** Nothing swallowed and no connection shown, as it is in the beginning. */
  predicate AtStart(s: State) {
    Inv(s) && s.swallowed == 0 && s.server.conns == 0
  }

  lemma InitIsStart()
    ensures AtStart(INIT)
  {
  }

  /**
   Then traffic is exact, and the connection count exactly if the opens and closes of handlers and relayed
   connections, interleaved as they were since the start, never took the counter below zero.
   */
  lemma DrainedIsExact(start: State, run: seq<Step>)
    requires AtStart(start) && IsRun(start, run) && Drained(Exec(start, run))
    ensures var s := Exec(start, run);
            && s.server.inn == s.c.last.inn && s.server.out == s.c.last.out
            && s.server.conns >= s.c.last.conns + s.relay
            && (s.server.conns == s.c.last.conns + s.relay <==> StaysUp(0, Ticks(start, run)))
  {
    var s := Exec(start, run);
    RunKeeps(start, run);
    TotalOfZeros(s.handlers);
    SwallowedExactly(start, run);
  }

  lemma {:induction false} SumIsPositive(s: seq<Msg>)
    requires forall i | 0 <= i < |s| :: s[i].inn >= 0 && s[i].out >= 0
    ensures Sum(s).inn >= 0 && Sum(s).out >= 0
  {
    if s != [] {
      SumIsPositive(s[..|s| - 1]);
    }
  }

  /** The server never shows traffic that did not flow, lost reports or not. */
  lemma TrafficIsNeverOverstated(s: State)
    requires Reachable(s)
    ensures s.server.inn <= s.c.inn && s.server.out <= s.c.out
  {
    ReportsAreConserved(s);
    SumIsPositive(s.flight);
  }

  // ---- what is counted ----

  function BytesRead(run: seq<Step>): int {
    if run == [] then 0 else (if run[0].Read? then run[0].n else 0) + BytesRead(run[1..])
  }

  function BytesWritten(run: seq<Step>): int {
    if run == [] then 0 else (if run[0].Write? then run[0].n else 0) + BytesWritten(run[1..])
  }

  /** The byte counters hold all that was read and written. */
  lemma {:induction false} BytesAreCounted(s: State, run: seq<Step>)
    requires IsRun(s, run)
    ensures Exec(s, run).c.inn == s.c.inn + BytesRead(run) && Exec(s, run).c.out == s.c.out + BytesWritten(run)
    decreases |run|
  {
    if run != [] {
      BytesAreCounted(Next(s, run[0]), run[1..]);
    }
  }

  /** A packet counts as a session for fifteen seconds. */
  lemma PacketCountsForAWhile(udp: int, now: int)
    ensures UdpActive(udp, now) == 1 <==> udp != 0 && now - udp < 15_000_000_000
    ensures UdpActive(udp, now) == 0 || UdpActive(udp, now) == 1
  {
  }

  /** A report is handled once: for a known proxy its traffic is added and its connections are left to a handler. */
  lemma HandledOrDropped(s: State, i: nat, known: bool)
    requires i < |s.flight|
    ensures var s', m := Next(s, Deliver(i, known)), s.flight[i];
            && s'.flight == s.flight[..i] + s.flight[i + 1..] && s'.c == s.c && s'.relay == s.relay
            && (known ==> && s'.handlers == s.handlers + [m.conns] && s'.lost == s.lost
                          && (0 <= m.inn && 0 <= m.out && 0 <= s.server.conns ==>
                                s'.server == Msg(s.server.conns, s.server.inn + m.inn, s.server.out + m.out)))
            && (!known ==> s'.handlers == s.handlers && s'.server == s.server && s'.lost == Plus(s.lost, m))
  {
  }

  /** A flush that nobody disturbs reports what the counters show, once, and only if that is news. */
  lemma FlushReports(s: State, now: int) returns (s1: State, s2: State, s3: State, s4: State)
    requires s.c.phase.Waiting? && s.c.life.Alive?
    ensures Enabled(s, LoadTcp) && s1 == Next(s, LoadTcp) && Enabled(s1, LoadUdp(now)) && s2 == Next(s1, LoadUdp(now))
    ensures Enabled(s2, LoadIn) && s3 == Next(s2, LoadIn) && Enabled(s3, LoadOut(true)) && s4 == Next(s3, LoadOut(true))
    ensures var seen := Msg(s.c.tcp + UdpActive(s.c.udp, now), s.c.inn, s.c.out);
            var d := Msg(seen.conns - s.c.last.conns, seen.inn - s.c.last.inn, seen.out - s.c.last.out);
            && s4.c == s.c.(last := seen)
            && s4.flight == (if seen == s.c.last then s.flight else s.flight + [d])
            && s4.server == s.server && s4.handlers == s.handlers && s4.lost == s.lost
  {
    s1 := Next(s, LoadTcp);
    s2 := Next(s1, LoadUdp(now));
    s3 := Next(s2, LoadIn);
    s4 := Next(s3, LoadOut(true));
  }

  // ---- the order of handlers ----

  predicate PrefixOk(conns: int, s: seq<Msg>, k: nat)
    requires k <= |s|
  {
    conns + Sum(s[..k]).conns >= 0
  }

  /** No prefix of the changes takes a counter below zero. */
  predicate NeverBelow(conns: int, s: seq<Msg>) {
    forall k {:trigger PrefixOk(conns, s, k)} | 0 <= k <= |s| :: PrefixOk(conns, s, k)
  }

  lemma NeverBelowSnoc(conns: int, s: seq<Msg>, m: Msg)
    ensures NeverBelow(conns, s + [m]) <==> NeverBelow(conns, s) && conns + Sum(s + [m]).conns >= 0
  {
    var t := s + [m];
    assert t[..|t|] == t && (NeverBelow(conns, t) ==> PrefixOk(conns, t, |t|));
    forall k | 0 <= k <= |s| ensures PrefixOk(conns, t, k) <==> PrefixOk(conns, s, k) {
      assert t[..k] == s[..k];
    }
    if NeverBelow(conns, t) {
      forall k | 0 <= k <= |s| ensures PrefixOk(conns, s, k) {
        assert PrefixOk(conns, t, k);
      }
    }
  }

  /** The connection counter adds up exactly when no prefix of the applied changes takes it below zero. */
  lemma {:induction false} AppliedExactly(server: Msg, s: seq<Msg>)
    requires server.conns >= 0
    ensures AppliedAll(server, s).conns >= 0 && AppliedAll(server, s).conns >= server.conns + Sum(s).conns
    ensures AppliedAll(server, s).conns == server.conns + Sum(s).conns <==>
            NeverBelow(server.conns, s)
    decreases |s|
  {
    if s == [] {
      assert forall k | 0 <= k <= |s| :: s[..k] == s;
    } else {
      var p := s[..|s| - 1];
      AppliedExactly(server, p);
      assert s == p + [s[|s| - 1]];
      NeverBelowSnoc(server.conns, p, s[|s| - 1]);
    }
  }

  function Units(j: nat, n: nat): seq<Step> {
    if n == 0 then [] else [Unit(j)] + Units(j, n - 1)
  }

  /** A handler nobody interrupts opens or closes its connections one by one to the same effect. */
  lemma {:induction false} HandlerAlone(s: State, j: nat, n: nat)
    requires j < |s.handlers| && s.server.conns >= 0 && (n == s.handlers[j] || n == -s.handlers[j])
    ensures IsRun(s, Units(j, n))
    ensures var t := Exec(s, Units(j, n));
            t.server == Applied(s.server, Msg(s.handlers[j], 0, 0)) && t.handlers == s.handlers[j := 0]
    decreases n
  {
    if n > 0 {
      var next := OneConnection(s, j);
      HandlerAlone(next, j, n - 1);
      assert Units(j, n)[0] == Unit(j) && Units(j, n)[1..] == Units(j, n - 1);
      assert next.handlers[j := 0] == s.handlers[j := 0];
    }
  }

  /** The reports add up to the last one; only the very last, after shutdown, may take their sum below zero. */
  predicate Ordered(s: State) {
    && Sum(s.reports) == s.c.last && (NeverBelow(0, s.reports) <==> s.c.last.conns >= 0)
    && (!s.c.life.Ended? ==> s.c.last.conns >= 0)
    && (s.c.life.Zeroing? || s.c.life.Ended? ==> s.c.phase.Waiting?)
    && (s.c.life.Alive? ==> s.c.tcp == s.open && (s.c.phase.Waiting? || s.c.phase.c >= 0))
  }

  lemma OneMoreReport(reports: seq<Msg>, last: Msg, now: Msg)
    requires Sum(reports) == last && NeverBelow(0, reports)
    ensures Sum(reports + [Change(last, now)]) == now
    ensures NeverBelow(0, reports + [Change(last, now)]) <==> now.conns >= 0
  {
    SumSnoc(reports, Change(last, now));
    NeverBelowSnoc(0, reports, Change(last, now));
  }

  lemma ReportKeepsOrdered(s: State, now: Msg, sent: bool)
    requires Ordered(s) && !s.c.life.Zeroing? && !s.c.life.Ended? && (s.c.life.Alive? ==> now.conns >= 0)
    ensures Ordered(Report(s, Flushed(s.c.last, now), sent))
  {
    var t := Report(s, Flushed(s.c.last, now), sent);
    if Change(s.c.last, now) == ZERO {
      assert t.reports == s.reports && t.c.last == s.c.last;
    } else {
      OneMoreReport(s.reports, s.c.last, now);
      assert t.reports == s.reports + [Change(s.c.last, now)] && t.c.last == now;
    }
  }

  lemma {:induction false} RunKeepsOrdered(s: State, run: seq<Step>)
    requires Ordered(s) && IsRun(s, run)
    ensures Ordered(Exec(s, run))
    decreases |run|
  {
    if run != [] {
      if run[0].LoadOut? {
        ReportKeepsOrdered(s, Msg(s.c.phase.c, s.c.phase.i, s.c.out), run[0].sent);
      }
      RunKeepsOrdered(Next(s, run[0]), run[1..]);
    }
  }

  /**
   Reports handled one after the other, in the order they were sent, give the count last reported exactly when that
   is not below zero, which it can only be after the report at shutdown.
   */
  lemma InOrderIsExact(s: State)
    requires Reachable(s)
    ensures AppliedAll(ZERO, s.reports).conns == s.c.last.conns <==> s.c.last.conns >= 0
    ensures !s.c.life.Ended? ==> s.c.last.conns >= 0
  {
    var run :| IsRun(INIT, run) && Exec(INIT, run) == s;
    assert NeverBelow(0, []);
    RunKeepsOrdered(INIT, run);
    AppliedExactly(ZERO, s.reports);
  }

  /** In another order they may not: a stream opened and closed again is shown as open for good. */
  lemma ReorderedReportsStick()
    ensures AppliedAll(ZERO, [Msg(1, 0, 0), Msg(-1, 0, 0)]).conns == 0
    ensures AppliedAll(ZERO, [Msg(-1, 0, 0), Msg(1, 0, 0)]).conns == 1
  {
    var a, b := Msg(1, 0, 0), Msg(-1, 0, 0);
    assert [a, b][..1] == [a] && [b, a][..1] == [b];
    assert [a][..0] == [] && [b][..0] == [];
    assert AppliedAll(ZERO, [a]) == a && AppliedAll(ZERO, [b]) == ZERO;
  }

  // ---- the last report ----

  /** Steps of others while the reporter stops: streams, packets and the server. */
  predicate ByOthers(run: seq<Step>) {
    forall i | 0 <= i < |run| ::
      var t := run[i];
      t.TcpOpen? || t.TcpClose? || t.Udp? || t.Read? || t.Write? || t.Deliver? || t.Unit? || t.RelayOpen? || t.RelayClose?
  }

  /** Streams opened less streams closed. */
  function Net(run: seq<Step>): int {
    if run == [] then 0
    else (if run[0].TcpOpen? then 1 else if run[0].TcpClose? then -1 else 0) + Net(run[1..])
  }

  /** The time of the last packet, zero if there was none. */
  function LastUdp(udp: int, run: seq<Step>): int
    decreases |run|
  {
    if run == [] then udp else LastUdp(if run[0].Udp? then run[0].now else udp, run[1..])
  }

  lemma {:induction false} OthersCount(s: State, run: seq<Step>)
    requires IsRun(s, run) && ByOthers(run)
    ensures var c := Exec(s, run).c;
            c.tcp == s.c.tcp + Net(run) && c.udp == LastUdp(s.c.udp, run) &&
            c.phase == s.c.phase && c.life == s.c.life && c.last == s.c.last
    decreases |run|
  {
    if run != [] {
      OthersCount(Next(s, run[0]), run[1..]);
    }
  }

  /** What others do between the steps of the reporter that stops: its stores, its loads, and its last report. */
  datatype Shutdown = Shutdown(a: seq<Step>, b: seq<Step>, c: seq<Step>, now: int, d: seq<Step>, e: seq<Step>, sent: bool) {
    predicate Valid() {
      ByOthers(a) && ByOthers(b) && ByOthers(c) && ByOthers(d) && ByOthers(e)
    }

    function Steps(): seq<Step> {
      [StoreTcp] + a + ([StoreUdp] + b + ([LoadTcp] + c + ([LoadUdp(now)] + d + ([LoadIn] + e + [LoadOut(sent)]))))
    }
  }

  /** One step of the reporter, then some of others. */
  lemma AndOthers(s: State, step: Step, x: seq<Step>, rest: seq<Step>) returns (s': State)
    requires ByOthers(x) && IsRun(s, [step] + x + rest)
    ensures Enabled(s, step) && IsRun(s', rest) && Exec(s, [step] + x + rest) == Exec(s', rest)
    ensures var c := Next(s, step).c;
            s'.c.tcp == c.tcp + Net(x) && s'.c.udp == LastUdp(c.udp, x) &&
            s'.c.phase == c.phase && s'.c.life == c.life && s'.c.last == c.last
  {
    var run := [step] + x + rest;
    assert run[0] == step && run[1..] == x + rest;
    var n := Next(s, step);
    RunSplits(n, x, rest);
    OthersCount(n, x);
    s' := Exec(n, x);
  }

  /**
   The last report leaves the client at what happened since the stores: the streams opened less those closed before
   the load, and one for a packet seen after the second store.
   */
  lemma LastReport(s: State, x: Shutdown)
    requires x.Valid() && IsRun(s, x.Steps())
    ensures var end := Exec(s, x.Steps()).c;
            end.life.Ended? && end.last.conns == Net(x.a) + Net(x.b) + UdpActive(LastUdp(LastUdp(0, x.b), x.c), x.now)
  {
    var r5 := [LoadOut(x.sent)];
    var r4 := [LoadIn] + x.e + r5;
    var r3 := [LoadUdp(x.now)] + x.d + r4;
    var r2 := [LoadTcp] + x.c + r3;
    var r1 := [StoreUdp] + x.b + r2;
    var s1 := AndOthers(s, StoreTcp, x.a, r1);
    var s2 := AndOthers(s1, StoreUdp, x.b, r2);
    var s3 := AndOthers(s2, LoadTcp, x.c, r3);
    var s4 := AndOthers(s3, LoadUdp(x.now), x.d, r4);
    var s5 := AndOthers(s4, LoadIn, x.e, r5);
    assert Exec(s5, r5) == Next(s5, LoadOut(x.sent));
  }

  /** A reporter that waits can always be stopped, and that ends it. */
  lemma ReporterStops(s: State, now: int, sent: bool)
    requires s.c.life.Alive? && s.c.phase.Waiting?
    ensures IsRun(s, Shutdown([], [], [], now, [], [], sent).Steps())
    ensures Exec(s, Shutdown([], [], [], now, [], [], sent).Steps()).c.life.Ended?
  {
    var s1 := Next(s, StoreTcp);
    var s2 := Next(s1, StoreUdp);
    var s3 := Next(s2, LoadTcp);
    var s4 := Next(s3, LoadUdp(now));
    var s5 := Next(s4, LoadIn);
    var r5 := [LoadOut(sent)];
    var r4 := [LoadIn] + [] + r5;
    var r3 := [LoadUdp(now)] + [] + r4;
    var r2 := [LoadTcp] + [] + r3;
    var r1 := [StoreUdp] + [] + r2;
    assert IsRun(s5, r5) && r4[1..] == r5 && r3[1..] == r4 && r2[1..] == r3 && r1[1..] == r2;
    assert IsRun(s4, r4);
    assert IsRun(s3, r3);
    assert IsRun(s2, r2);
    assert IsRun(s1, r1);
    assert ([StoreTcp] + [] + r1)[1..] == r1;
    LastReport(s, Shutdown([], [], [], now, [], [], sent));
  }

  predicate Quiet(run: seq<Step>) {
    forall i | 0 <= i < |run| :: !run[i].TcpOpen? && !run[i].TcpClose? && !run[i].Udp?
  }

  lemma {:induction false} QuietCountsNothing(run: seq<Step>, udp: int)
    requires Quiet(run)
    ensures Net(run) == 0 && LastUdp(udp, run) == udp
    decreases |run|
  {
    if run != [] {
      QuietCountsNothing(run[1..], udp);
    }
  }

  /** Nothing opening, closing or flowing in between: client and server, its reports in order, end at zero. */
  lemma QuietShutdownEndsAtZero(s: State, x: Shutdown)
    requires Reachable(s) && x.Valid() && IsRun(s, x.Steps()) && Quiet(x.a) && Quiet(x.b) && Quiet(x.c)
    ensures var end := Exec(s, x.Steps());
            end.c.last.conns == 0 && AppliedAll(ZERO, end.reports).conns == 0
  {
    LastReport(s, x);
    QuietCountsNothing(x.a, 0);
    QuietCountsNothing(x.b, 0);
    QuietCountsNothing(x.c, 0);
    StillReachable(s, x.Steps());
    InOrderIsExact(Exec(s, x.Steps()));
  }

  // ---- the objects ----

  class Reporter {
    var tcpConns: int
    var lastUDPNano: int
    var inBytes: int
    var outBytes: int
    var lastConns: int
    var lastIn: int
    var lastOut: int

    function Last(): Msg
      reads this
    {
      Msg(lastConns, lastIn, lastOut)
    }

    function Counts(now: int): Msg
      reads this
    {
      Msg(tcpConns + UdpActive(lastUDPNano, now), inBytes, outBytes)
    }

    constructor ()
      ensures Last() == ZERO && tcpConns == lastUDPNano == inBytes == outBytes == 0
    {
      tcpConns, lastUDPNano, inBytes, outBytes, lastConns, lastIn, lastOut := 0, 0, 0, 0, 0, 0, 0;
    }

    method CurrentConns(now: int) returns (c: int)
      ensures c == Counts(now).conns
      ensures c == tcpConns || c == tcpConns + 1
      ensures c == tcpConns + 1 <==> lastUDPNano != 0 && now - lastUDPNano < 15_000_000_000
    {
      c := tcpConns;
      if lastUDPNano != 0 && now - lastUDPNano < UDP_IDLE_TIMEOUT {
        c := c + 1;
      }
    }

    /** A flush that nobody disturbs. Nothing sent exactly when nothing moved; what is sent brings the report up to date. */
    method Flush(now: int) returns (sent: Option<Msg>)
      modifies this`lastConns, this`lastIn, this`lastOut
      ensures (Last(), sent) == Flushed(old(Last()), Counts(now))
      ensures Last() == Counts(now) && (sent == None <==> old(Last()) == Counts(now))
      ensures sent.Some? ==> Plus(old(Last()), sent.value) == Counts(now)
    {
      var conns := CurrentConns(now);
      var dConns, dIn, dOut := conns - lastConns, inBytes - lastIn, outBytes - lastOut;
      if dConns == 0 && dIn == 0 && dOut == 0 {
        return None;
      }
      lastConns, lastIn, lastOut := conns, inBytes, outBytes;
      sent := Some(Msg(dConns, dIn, dOut));
    }

    /** The end of the reporter. */
    method Shutdown(now: int) returns (sent: Option<Msg>)
      modifies this
      ensures Last() == Msg(0, inBytes, outBytes) && inBytes == old(inBytes) && outBytes == old(outBytes)
      ensures (sent == None && old(Last()) == Last()) || (sent.Some? && Plus(old(Last()), sent.value) == Last())
    {
      tcpConns := 0;
      lastUDPNano := 0;
      sent := Flush(now);
    }
  }

  class ProxyStatistics {
    var curConns: int
    var trafficIn: int
    var trafficOut: int

    function View(): Msg
      reads this
    {
      Msg(curConns, trafficIn, trafficOut)
    }

    constructor ()
      ensures View() == ZERO
    {
      curConns, trafficIn, trafficOut := 0, 0, 0;
    }

    method OpenConnection()
      modifies this`curConns
      ensures curConns == old(curConns) + 1
    {
      curConns := curConns + 1;
    }

    method CloseConnection()
      modifies this`curConns
      ensures curConns == Closed(old(curConns))
    {
      if curConns > 0 {
        curConns := curConns - 1;
      }
    }

    method HandleProxyMetrics(m: Msg)
      requires curConns >= 0
      modifies this
      ensures View() == Applied(old(View()), m)
    {
      if m.inn > 0 {
        trafficIn := trafficIn + m.inn;
      }
      if m.out > 0 {
        trafficOut := trafficOut + m.out;
      }
      var d := m.conns;
      while d > 0
        invariant d >= 0 || d == m.conns
        invariant curConns == old(curConns) + m.conns - d
        modifies this`curConns
      {
        OpenConnection();
        d := d - 1;
      }
      d := m.conns;
      label AfterOpens:
      while d < 0
        invariant m.conns <= d <= 0 || d == m.conns
        invariant View() == Applied(old@AfterOpens(View()), Msg(m.conns - d, 0, 0))
        modifies this`curConns
      {
        CloseConnection();
        d := d + 1;
      }
    }
  }
}

/**
 The reputation lookup of the firewall as a concurrent protocol. Each caller of
 checkExternal samples the clock, enters repMu, and then has its answer, waits for
 the query another caller has in flight, or queries the provider itself. Steps of
 any number of callers, and of SetConfig, interleave in any order.
 */
module Reputation {
  import opened Options

  type Ip = string
  type Tid = nat
  type Chan = nat

  datatype Verdict = Verdict(blocked: bool, reason: string)

  datatype Entry = Entry(verdict: Verdict, exp: int)

  /** What repMu guards. */
  datatype Shared = Shared(cache: map<Ip, Entry>, inFlight: map<Ip, Chan>)

  datatype Phase =
    | Entering                                 // at the top of the loop
    | Sampled(now: int)                        // nowFn has been called, repMu not yet taken
    | Waiting(ch: Chan)                        // on the channel of the query in flight
    | Querying(start: int, ch: Chan)           // queryProvider is running
    | Stored(ch: Chan, verdict: Verdict)       // the answer is cached, the channel still open
    | Returned(verdict: Verdict)

  datatype Caller = Caller(ip: Ip, ttlSec: int, failOpen: bool, phase: Phase)

  /** A channel, who made it, and how often it was closed. */
  datatype Channel = Channel(owner: Tid, ip: Ip, closes: nat)

  datatype Event =
    | Asked(ip: Ip, start: int)
    | Answered(ip: Ip, start: int, ttl: int, verdict: Verdict)
    | ConfigSet

  datatype State = State(
    shared: Shared,
    callers: map<Tid, Caller>,
    chans: map<Chan, Channel>,
    log: seq<Event>)

  // ---- the two critical sections ----

  datatype Look = Hit(verdict: Verdict) | Join(ch: Chan) | Ask

  function LookUp(s: Shared, ip: Ip, now: int): Look {
    if ip in s.cache && s.cache[ip].exp > now then Hit(s.cache[ip].verdict)
    else if ip in s.inFlight then Join(s.inFlight[ip])
    else Ask
  }

  function AfterAnswer(s: Shared, ip: Ip, e: Entry): Shared {
    Shared(s.cache[ip := e], s.inFlight - {ip})
  }

  /** How long an answer is good for; a failing provider is not asked again for 10 seconds. */
  function Ttl(ttlSec: int, ok: bool): (ttl: int)
    ensures ttl > 0
  {
    if !ok then 10 else if ttlSec <= 0 then 300 else ttlSec
  }

  function Judge(failOpen: bool, ok: bool, answer: Verdict): Verdict {
    if ok then answer else Verdict(!failOpen, "provider unavailable")
  }

  // ---- steps ----

  datatype Step =
    | Arrive(t: Tid, ip: Ip, ttlSec: int, failOpen: bool)
    | Sample(t: Tid, now: int)
    | Check(t: Tid, ch: Chan)                        // ch is the channel made if the caller has to ask
    | Answer(t: Tid, ok: bool, answer: Verdict)
    | Close(t: Tid)
    | Wake(t: Tid)
    | SetConfig

  predicate Enabled(s: State, a: Step) {
    match a
    case Arrive(t, _, _, _) => t !in s.callers
    case Sample(t, _) => t in s.callers && s.callers[t].phase.Entering?
    case Check(t, ch) => t in s.callers && s.callers[t].phase.Sampled? && ch !in s.chans
    case Answer(t, _, _) => t in s.callers && s.callers[t].phase.Querying?
    case Close(t) => t in s.callers && s.callers[t].phase.Stored? && s.callers[t].phase.ch in s.chans
    case Wake(t) =>
      t in s.callers && s.callers[t].phase.Waiting? && s.callers[t].phase.ch in s.chans
      && s.chans[s.callers[t].phase.ch].closes > 0
    case SetConfig => true
  }

  function Move(s: State, t: Tid, p: Phase): State
    requires t in s.callers
  {
    s.(callers := s.callers[t := s.callers[t].(phase := p)])
  }

  function Next(s: State, a: Step): State
    requires Enabled(s, a)
  {
    match a
    case Arrive(t, ip, ttlSec, failOpen) => s.(callers := s.callers[t := Caller(ip, ttlSec, failOpen, Entering)])
    case Sample(t, now) => Move(s, t, Sampled(now))
    case Check(t, ch) =>
      var c := s.callers[t];
      var now := c.phase.now;
      (match LookUp(s.shared, c.ip, now)
       case Hit(v) => Move(s, t, Returned(v))
       case Join(other) => Move(s, t, Waiting(other))
       case Ask =>
         Move(s, t, Querying(now, ch)).(
           shared := s.shared.(inFlight := s.shared.inFlight[c.ip := ch]),
           chans := s.chans[ch := Channel(t, c.ip, 0)],
           log := s.log + [Asked(c.ip, now)]))
    case Answer(t, ok, answer) =>
      var c := s.callers[t];
      var ttl, v := Ttl(c.ttlSec, ok), Judge(c.failOpen, ok, answer);
      Move(s, t, Stored(c.phase.ch, v)).(
        shared := AfterAnswer(s.shared, c.ip, Entry(v, c.phase.start + ttl)),
        log := s.log + [Answered(c.ip, c.phase.start, ttl, v)])
    case Close(t) =>
      var p := s.callers[t].phase;
      Move(s, t, Returned(p.verdict)).(chans := s.chans[p.ch := s.chans[p.ch].(closes := s.chans[p.ch].closes + 1)])
    case Wake(t) => Move(s, t, Entering)
    case SetConfig => s.(shared := s.shared.(cache := map[]), log := s.log + [ConfigSet])
  }

  const INIT := State(Shared(map[], map[]), map[], map[], [])

  predicate IsRun(s: State, run: seq<Step>)
    decreases |run|
  {
    run == [] || (Enabled(s, run[0]) && IsRun(Next(s, run[0]), run[1..]))
  }

  function Exec(s: State, run: seq<Step>): State
    requires IsRun(s, run)
    decreases |run|
  {
    if run == [] then s else Exec(Next(s, run[0]), run[1..])
  }

  // ---- who is in flight ----

  predicate FlightOk(s: State, ip: Ip)
    requires ip in s.shared.inFlight
  {
    var ch := s.shared.inFlight[ip];
    && ch in s.chans && s.chans[ch].ip == ip && s.chans[ch].owner in s.callers
    && s.callers[s.chans[ch].owner].phase.Querying? && s.callers[s.chans[ch].owner].phase.ch == ch
  }

  predicate CallerOk(s: State, t: Tid)
    requires t in s.callers
  {
    var c := s.callers[t];
    match c.phase
    case Waiting(ch) => ch in s.chans && s.chans[ch].ip == c.ip
    case Querying(_, ch) => Lookup(s.shared.inFlight, c.ip) == Some(ch) && Lookup(s.chans, ch) == Some(Channel(t, c.ip, 0))
    case Stored(ch, _) => Lookup(s.chans, ch) == Some(Channel(t, c.ip, 0)) && Lookup(s.shared.inFlight, c.ip) != Some(ch)
    case _ => true
  }

  /** An open channel belongs to a caller that has yet to close it. */
  predicate ChanOk(s: State, ch: Chan)
    requires ch in s.chans
  {
    var k := s.chans[ch];
    && k.closes <= 1
    && (k.closes == 0 ==>
          k.owner in s.callers && s.callers[k.owner].ip == k.ip &&
          var p := s.callers[k.owner].phase;
          (p.Querying? || p.Stored?) && p.ch == ch)
  }

  predicate FlightInv(s: State) {
    && (forall ip {:trigger FlightOk(s, ip)} | ip in s.shared.inFlight :: FlightOk(s, ip))
    && (forall t {:trigger CallerOk(s, t)} | t in s.callers :: CallerOk(s, t))
    && (forall ch {:trigger ChanOk(s, ch)} | ch in s.chans :: ChanOk(s, ch))
  }

  /** What the acting caller brings along. */
  predicate ActorOk(s: State, a: Step) {
    !a.SetConfig? && a.t in s.callers ==>
      var ip := s.callers[a.t].ip;
      CallerOk(s, a.t) && (ip in s.shared.inFlight ==> FlightOk(s, ip))
  }

  lemma FlightKept(s: State, a: Step, ip: Ip)
    requires Enabled(s, a) && ActorOk(s, a)
    requires ip in Next(s, a).shared.inFlight && (ip in s.shared.inFlight ==> FlightOk(s, ip))
    ensures FlightOk(Next(s, a), ip)
  {
  }

  lemma CallerKept(s: State, a: Step, t: Tid)
    requires Enabled(s, a) && ActorOk(s, a)
    requires t in Next(s, a).callers && (t in s.callers ==> CallerOk(s, t))
    ensures CallerOk(Next(s, a), t)
  {
  }

  lemma ChanKept(s: State, a: Step, ch: Chan)
    requires Enabled(s, a) && ActorOk(s, a)
    requires ch in Next(s, a).chans && (ch in s.chans ==> ChanOk(s, ch))
    ensures ChanOk(Next(s, a), ch)
  {
  }

  lemma StepKeepsFlights(s: State, a: Step)
    requires FlightInv(s) && Enabled(s, a)
    ensures FlightInv(Next(s, a))
  {
    var s' := Next(s, a);
    assert ActorOk(s, a);
    forall ip | ip in s'.shared.inFlight ensures FlightOk(s', ip) {
      FlightKept(s, a, ip);
    }
    forall t | t in s'.callers ensures CallerOk(s', t) {
      CallerKept(s, a, t);
    }
    forall ch | ch in s'.chans ensures ChanOk(s', ch) {
      ChanKept(s, a, ch);
    }
  }

  lemma {:induction false} RunKeepsFlights(s: State, run: seq<Step>)
    requires FlightInv(s) && IsRun(s, run)
    ensures FlightInv(Exec(s, run))
    decreases |run|
  {
    if run != [] {
      StepKeepsFlights(s, run[0]);
      RunKeepsFlights(Next(s, run[0]), run[1..]);
    }
  }

  /** However many callers interleave, at most one query per address is outstanding. */
  lemma OneQueryPerAddress(run: seq<Step>, t: Tid, u: Tid)
    requires IsRun(INIT, run)
    requires var s := Exec(INIT, run);
             t in s.callers && u in s.callers && s.callers[t].phase.Querying? && s.callers[u].phase.Querying?
             && s.callers[t].ip == s.callers[u].ip
    ensures t == u
  {
    RunKeepsFlights(INIT, run);
    var s := Exec(INIT, run);
    assert CallerOk(s, t) && CallerOk(s, u);
  }

  /** Every channel is closed at most once, and one that callers still wait on will be, by its maker. */
  lemma WaitersAreWoken(run: seq<Step>, t: Tid)
    requires IsRun(INIT, run)
    requires t in Exec(INIT, run).callers && Exec(INIT, run).callers[t].phase.Waiting?
    ensures var s := Exec(INIT, run);
            var ch := s.callers[t].phase.ch;
            && ch in s.chans && s.chans[ch].ip == s.callers[t].ip
            && (s.chans[ch].closes == 1 ||
                (s.chans[ch].closes == 0 && s.chans[ch].owner in s.callers && s.chans[ch].owner != t &&
                 var p := s.callers[s.chans[ch].owner].phase;
                 (p.Stored? && p.ch == ch) ||
                 (p.Querying? && p.ch == ch && Lookup(s.shared.inFlight, s.callers[t].ip) == Some(ch))))
  {
    RunKeepsFlights(INIT, run);
    var s := Exec(INIT, run);
    var ch := s.callers[t].phase.ch;
    assert CallerOk(s, t) && ChanOk(s, ch);
    if s.chans[ch].closes == 0 {
      assert CallerOk(s, s.chans[ch].owner);
    }
  }

  /** A channel is closed at most once, and only after it has left the table of queries in flight. */
  lemma ChannelsCloseOnce(run: seq<Step>, ch: Chan, ip: Ip)
    requires IsRun(INIT, run) && ch in Exec(INIT, run).chans
    ensures var s := Exec(INIT, run);
            s.chans[ch].closes <= 1 && (s.chans[ch].closes == 1 ==> Lookup(s.shared.inFlight, ip) != Some(ch))
  {
    RunKeepsFlights(INIT, run);
    var s := Exec(INIT, run);
    assert ChanOk(s, ch);
    if ip in s.shared.inFlight {
      assert FlightOk(s, ip) && CallerOk(s, s.chans[s.shared.inFlight[ip]].owner);
    }
  }

  // ---- when the provider is asked ----

  /** No SetConfig is recorded strictly between i and j. */
  predicate Undisturbed(log: seq<Event>, i: nat, j: nat)
    requires j <= |log|
  {
    forall k | i < k < j :: !log[k].ConfigSet?
  }

  /** An answer still in force bounds the cache entry and the start of a query in flight from below. */
  predicate AnswerOk(s: State, i: nat)
    requires i < |s.log|
  {
    s.log[i].Answered? && Undisturbed(s.log, i, |s.log|) ==>
      var e := s.log[i];
      && e.ip in s.shared.cache && s.shared.cache[e.ip].exp >= e.start + e.ttl
      && (forall t | t in s.callers && s.callers[t].ip == e.ip && s.callers[t].phase.Querying? ::
            s.callers[t].phase.start >= e.start + e.ttl)
  }

  /** Queries for one address start no sooner than the earlier answer for it has expired. */
  predicate Spaced(log: seq<Event>, i: nat, j: nat)
    requires i < j < |log|
  {
    log[i].Answered? && log[j].Asked? && log[i].ip == log[j].ip && Undisturbed(log, i, j) ==>
      log[j].start >= log[i].start + log[i].ttl
  }

  predicate WasAnswered(log: seq<Event>, ip: Ip, v: Verdict) {
    exists i | 0 <= i < |log| :: log[i].Answered? && log[i].ip == ip && log[i].verdict == v
  }

  predicate ServedOk(s: State, t: Tid)
    requires t in s.callers
  {
    var p := s.callers[t].phase;
    p.Stored? || p.Returned? ==> WasAnswered(s.log, s.callers[t].ip, p.verdict)
  }

  predicate TimeInv(s: State) {
    && (forall i {:trigger AnswerOk(s, i)} | 0 <= i < |s.log| :: AnswerOk(s, i))
    && (forall i, j {:trigger Spaced(s.log, i, j)} | 0 <= i < j < |s.log| :: Spaced(s.log, i, j))
    && (forall ip | ip in s.shared.cache :: WasAnswered(s.log, ip, s.shared.cache[ip].verdict))
    && (forall t {:trigger ServedOk(s, t)} | t in s.callers :: ServedOk(s, t))
  }

  lemma AnswersGrow(log: seq<Event>, e: Event, ip: Ip, v: Verdict)
    requires WasAnswered(log, ip, v)
    ensures WasAnswered(log + [e], ip, v)
  {
    var i :| 0 <= i < |log| && log[i].Answered? && log[i].ip == ip && log[i].verdict == v;
    assert (log + [e])[i] == log[i];
  }

  lemma UndisturbedBefore(log: seq<Event>, e: Event, i: nat)
    requires i < |log| && Undisturbed(log + [e], i, |log| + 1)
    ensures Undisturbed(log, i, |log|) && !e.ConfigSet?
  {
    assert (log + [e])[|log|] == e;
    forall k | i < k < |log| ensures !log[k].ConfigSet? {
      assert (log + [e])[k] == log[k];
    }
  }

  /** Steps that write neither the log nor the cache, and start no query. */
  lemma QuietStepKeepsTime(s: State, a: Step)
    requires FlightInv(s) && TimeInv(s) && Enabled(s, a) && Next(s, a).log == s.log && !a.Answer?
    ensures TimeInv(Next(s, a))
  {
    var s' := Next(s, a);
    forall i | 0 <= i < |s'.log| ensures AnswerOk(s', i) {
      assert AnswerOk(s, i);
    }
    forall i, j | 0 <= i < j < |s'.log| ensures Spaced(s'.log, i, j) {
      assert Spaced(s.log, i, j);
    }
    forall t | t in s'.callers ensures ServedOk(s', t) {
      assert t in s.callers ==> ServedOk(s, t);
    }
  }

  /** All that depends on older events survives one more; the last event is the step's own affair. */
  lemma OldEventsStay(s: State, s': State, e: Event)
    requires TimeInv(s) && s'.log == s.log + [e]
    ensures forall i, j | 0 <= i < j < |s.log| :: Spaced(s'.log, i, j)
    ensures forall ip, v | WasAnswered(s.log, ip, v) :: WasAnswered(s'.log, ip, v)
    ensures forall i | 0 <= i < |s.log| && Undisturbed(s'.log, i, |s'.log|) :: Undisturbed(s.log, i, |s.log|) && !e.ConfigSet?
    ensures forall i | 0 <= i < |s.log| && Undisturbed(s'.log, i, |s.log|) :: Undisturbed(s.log, i, |s.log|)
  {
    forall i, j | 0 <= i < j < |s.log| ensures Spaced(s'.log, i, j) {
      assert Spaced(s.log, i, j) && s'.log[i] == s.log[i] && s'.log[j] == s.log[j];
      if Undisturbed(s'.log, i, j) {
        forall k | i < k < j ensures !s.log[k].ConfigSet? { assert s'.log[k] == s.log[k]; }
      }
    }
    forall ip, v | WasAnswered(s.log, ip, v) ensures WasAnswered(s'.log, ip, v) {
      AnswersGrow(s.log, e, ip, v);
    }
    forall i | 0 <= i < |s.log| && Undisturbed(s'.log, i, |s'.log|) ensures Undisturbed(s.log, i, |s.log|) && !e.ConfigSet? {
      UndisturbedBefore(s.log, e, i);
    }
    forall i | 0 <= i < |s.log| && Undisturbed(s'.log, i, |s.log|) ensures Undisturbed(s.log, i, |s.log|) {
      forall k | i < k < |s.log| ensures !s.log[k].ConfigSet? { assert s'.log[k] == s.log[k]; }
    }
  }

  lemma AskKeepsTime(s: State, a: Step)
    requires FlightInv(s) && TimeInv(s) && Enabled(s, a) && a.Check?
    requires LookUp(s.shared, s.callers[a.t].ip, s.callers[a.t].phase.now).Ask?
    ensures TimeInv(Next(s, a))
  {
    var s', c := Next(s, a), s.callers[a.t];
    OldEventsStay(s, s', Asked(c.ip, c.phase.now));
    forall i | 0 <= i < |s'.log| ensures AnswerOk(s', i) {
      assert i < |s.log| ==> AnswerOk(s, i) && s'.log[i] == s.log[i];
    }
    forall i, j | 0 <= i < j < |s'.log| ensures Spaced(s'.log, i, j) {
      if j == |s.log| {
        assert AnswerOk(s, i) && s'.log[i] == s.log[i];
      }
    }
    forall t | t in s'.callers ensures ServedOk(s', t) {
      assert ServedOk(s, t);
    }
  }

  lemma AnswerKeepsTime(s: State, a: Step)
    requires FlightInv(s) && TimeInv(s) && Enabled(s, a) && a.Answer?
    ensures TimeInv(Next(s, a))
  {
    var s', c := Next(s, a), s.callers[a.t];
    var e := s'.log[|s.log|];
    OldEventsStay(s, s', e);
    assert CallerOk(s, a.t);
    assert WasAnswered(s'.log, c.ip, e.verdict);
    forall t | t in s'.callers && s'.callers[t].ip == c.ip ensures !s'.callers[t].phase.Querying? {
      assert CallerOk(s, t);
    }
    forall i | 0 <= i < |s'.log| ensures AnswerOk(s', i) {
      assert i < |s.log| ==> AnswerOk(s, i) && s'.log[i] == s.log[i];
    }
    forall i, j | 0 <= i < j < |s'.log| ensures Spaced(s'.log, i, j) {
    }
    forall t | t in s'.callers ensures ServedOk(s', t) {
      assert ServedOk(s, t);
    }
  }

  lemma SetConfigKeepsTime(s: State)
    requires TimeInv(s)
    ensures TimeInv(Next(s, SetConfig))
  {
    var s' := Next(s, SetConfig);
    OldEventsStay(s, s', ConfigSet);
    forall i | 0 <= i < |s'.log| ensures AnswerOk(s', i) {
    }
    forall i, j | 0 <= i < j < |s'.log| ensures Spaced(s'.log, i, j) {
    }
    forall t | t in s'.callers ensures ServedOk(s', t) {
      assert ServedOk(s, t);
    }
  }

  lemma {:induction false} RunKeepsTime(s: State, run: seq<Step>)
    requires FlightInv(s) && TimeInv(s) && IsRun(s, run)
    ensures TimeInv(Exec(s, run))
    decreases |run|
  {
    if run != [] {
      var a := run[0];
      StepKeepsFlights(s, a);
      if a.SetConfig? {
        SetConfigKeepsTime(s);
      } else if a.Answer? {
        AnswerKeepsTime(s, a);
      } else if a.Check? && LookUp(s.shared, s.callers[a.t].ip, s.callers[a.t].phase.now).Ask? {
        AskKeepsTime(s, a);
      } else {
        QuietStepKeepsTime(s, a);
      }
      RunKeepsTime(Next(s, a), run[1..]);
    }
  }

  // ---- one query after the other ----

  /** Event k is the answer to the query of event i. */
  predicate Answers(log: seq<Event>, i: nat, k: nat)
    requires i < |log| && k < |log|
  {
    log[i].Asked? && log[k].Answered? && log[k].ip == log[i].ip && log[k].start == log[i].start
  }

  predicate AnsweredBetween(log: seq<Event>, i: nat, j: nat)
    requires i < |log| && j <= |log|
  {
    exists k | i < k < j :: Answers(log, i, k)
  }

  predicate Outstanding(s: State, e: Event)
    requires e.Asked?
  {
    exists t | t in s.callers ::
      s.callers[t].phase.Querying? && s.callers[t].ip == e.ip && s.callers[t].phase.start == e.start
  }

  predicate AskedOk(s: State, i: nat)
    requires i < |s.log|
  {
    s.log[i].Asked? ==> Outstanding(s, s.log[i]) || AnsweredBetween(s.log, i, |s.log|)
  }

  predicate InTurn(log: seq<Event>, i: nat, j: nat)
    requires i < j < |log|
  {
    log[i].Asked? && log[j].Asked? && log[i].ip == log[j].ip ==> AnsweredBetween(log, i, j)
  }

  predicate AskInv(s: State) {
    && (forall i {:trigger AskedOk(s, i)} | 0 <= i < |s.log| :: AskedOk(s, i))
    && (forall i, j {:trigger InTurn(s.log, i, j)} | 0 <= i < j < |s.log| :: InTurn(s.log, i, j))
  }

  lemma AnsweredGrows(log: seq<Event>, more: seq<Event>, i: nat, j: nat)
    requires i < |log| && j <= |log| && AnsweredBetween(log, i, j)
    ensures AnsweredBetween(log + more, i, j) && AnsweredBetween(log + more, i, |log + more|)
  {
    var k :| i < k < j && Answers(log, i, k);
    assert Answers(log + more, i, k);
  }

  /** What a step adds to the log. */
  lemma LogGrows(s: State, a: Step) returns (more: seq<Event>)
    requires Enabled(s, a)
    ensures Next(s, a).log == s.log + more && |more| <= 1
  {
    more := Next(s, a).log[|s.log|..];
  }

  lemma AskedStays(s: State, a: Step, i: nat)
    requires Enabled(s, a) && i < |s.log| && AskedOk(s, i)
    ensures i < |Next(s, a).log| && AskedOk(Next(s, a), i)
  {
    var s' := Next(s, a);
    var more := LogGrows(s, a);
    assert s'.log[i] == s.log[i];
    if s.log[i].Asked? {
      if AnsweredBetween(s.log, i, |s.log|) {
        AnsweredGrows(s.log, more, i, |s.log|);
      } else {
        var t :| t in s.callers && s.callers[t].phase.Querying? && s.callers[t].ip == s.log[i].ip
                 && s.callers[t].phase.start == s.log[i].start;
        if a.Answer? && a.t == t {
          assert Answers(s'.log, i, |s.log|);
        } else {
          assert s'.callers[t] == s.callers[t];
        }
      }
    }
  }

  lemma OutstandingIsInFlight(s: State, e: Event)
    requires FlightInv(s) && e.Asked?
    ensures Outstanding(s, e) ==> e.ip in s.shared.inFlight
  {
    if Outstanding(s, e) {
      var t :| t in s.callers && s.callers[t].phase.Querying? && s.callers[t].ip == e.ip;
      assert CallerOk(s, t);
    }
  }

  /** Whoever asks finds every earlier query for the address answered. */
  lemma AskedInTurn(s: State, a: Step, i: nat)
    requires FlightInv(s) && Enabled(s, a) && i < |s.log| && AskedOk(s, i) && |Next(s, a).log| > |s.log|
    ensures InTurn(Next(s, a).log, i, |s.log|)
  {
    var s' := Next(s, a);
    var more := LogGrows(s, a);
    if s.log[i].Asked? && s'.log[|s.log|].Asked? && s.log[i].ip == s'.log[|s.log|].ip {
      OutstandingIsInFlight(s, s.log[i]);
      AnsweredGrows(s.log, more, i, |s.log|);
    }
  }

  lemma StepKeepsAsks(s: State, a: Step)
    requires FlightInv(s) && AskInv(s) && Enabled(s, a)
    ensures AskInv(Next(s, a))
  {
    var s' := Next(s, a);
    var more := LogGrows(s, a);
    forall i | 0 <= i < |s'.log| ensures AskedOk(s', i) {
      if i < |s.log| {
        AskedStays(s, a, i);
      } else if s'.log[i].Asked? {
        assert s'.callers[a.t].phase.Querying?;
      }
    }
    forall i, j | 0 <= i < j < |s'.log| ensures InTurn(s'.log, i, j) {
      assert AskedOk(s, i);
      if j == |s.log| {
        AskedInTurn(s, a, i);
      } else {
        assert InTurn(s.log, i, j) && s'.log[i] == s.log[i] && s'.log[j] == s.log[j];
        if AnsweredBetween(s.log, i, j) {
          AnsweredGrows(s.log, more, i, j);
        }
      }
    }
  }

  lemma {:induction false} RunKeepsAsks(s: State, run: seq<Step>)
    requires FlightInv(s) && AskInv(s) && IsRun(s, run)
    ensures AskInv(Exec(s, run))
    decreases |run|
  {
    if run != [] {
      StepKeepsFlights(s, run[0]);
      StepKeepsAsks(s, run[0]);
      RunKeepsAsks(Next(s, run[0]), run[1..]);
    }
  }

  /**
   In every run, of two queries for an address the earlier is answered before the later is asked, and the later
   starts at least that answer's lifetime after the earlier did, unless the configuration was set since the answer.
   */
  lemma QueriesAreSpaced(run: seq<Step>, i: nat, j: nat) returns (k: nat)
    requires IsRun(INIT, run)
    requires var log := Exec(INIT, run).log;
             i < j < |log| && log[i].Asked? && log[j].Asked? && log[i].ip == log[j].ip
    ensures var log := Exec(INIT, run).log;
            && i < k < j && log[k].Answered? && log[k].ip == log[i].ip && log[k].start == log[i].start
            && (Undisturbed(log, k, j) ==> log[j].start >= log[i].start + log[k].ttl)
  {
    RunKeepsAsks(INIT, run);
    RunKeepsTime(INIT, run);
    var log := Exec(INIT, run).log;
    assert InTurn(log, i, j);
    k :| i < k < j && Answers(log, i, k);
    assert Spaced(log, k, j);
  }

  /** No caller is told anything but what the provider, or its failure, was once recorded to say of its address. */
  lemma CallersGetRecordedAnswers(run: seq<Step>, t: Tid)
    requires IsRun(INIT, run)
    requires t in Exec(INIT, run).callers && Exec(INIT, run).callers[t].phase.Returned?
    ensures var s := Exec(INIT, run);
            WasAnswered(s.log, s.callers[t].ip, s.callers[t].phase.verdict)
  {
    RunKeepsTime(INIT, run);
    assert ServedOk(Exec(INIT, run), t);
  }

  // ---- what callers are told ----

  /** What a provider's answer, or its failure, amounts to. */
  predicate Told(failOpen: bool, ok: bool, answer: Verdict, v: Verdict) {
    if ok then v == answer else v.blocked == !failOpen && v.reason == "provider unavailable"
  }

  /** In seconds: as configured, five minutes if that is not positive, ten seconds for a failure. */
  function Lifetime(ttlSec: int, ok: bool): int {
    if !ok then 10 else if ttlSec > 0 then ttlSec else 300
  }

  /** An answer reaches the caller that asked, and the cache until the answer's lifetime after the query started. */
  lemma AnswerIsCached(s: State, t: Tid, ok: bool, answer: Verdict)
    requires Enabled(s, Answer(t, ok, answer))
    ensures var c, s' := s.callers[t], Next(s, Answer(t, ok, answer));
            && s'.callers[t].phase.Stored? && Told(c.failOpen, ok, answer, s'.callers[t].phase.verdict)
            && c.ip in s'.shared.cache && s'.shared.cache[c.ip].verdict == s'.callers[t].phase.verdict
            && s'.shared.cache[c.ip].exp ==
               c.phase.start + Lifetime(c.ttlSec, ok)
            && c.ip !in s'.shared.inFlight
            && s'.shared.cache - {c.ip} == s.shared.cache - {c.ip}
            && s'.shared.inFlight == s.shared.inFlight - {c.ip}
  {
  }

  /** An entry is served exactly as long as it has not expired; otherwise the caller waits or asks. */
  lemma ServedUntilExpiry(s: State, t: Tid, ch: Chan)
    requires Enabled(s, Check(t, ch))
    ensures var c, p := s.callers[t], Next(s, Check(t, ch)).callers[t].phase;
            var cache, flight := s.shared.cache, s.shared.inFlight;
            && (p.Returned? <==> c.ip in cache && c.phase.now < cache[c.ip].exp)
            && (p.Returned? ==> p.verdict == cache[c.ip].verdict)
            && (p.Waiting? <==> !p.Returned? && c.ip in flight) && (p.Waiting? ==> p.ch == flight[c.ip])
            && (p.Querying? <==> !p.Returned? && c.ip !in flight) && (p.Querying? ==> p.start == c.phase.now && p.ch == ch)
  {
  }

  /** The step is an answer about the address that amounts to the verdict. */
  predicate BringsIn(s: State, a: Step, ip: Ip, v: Verdict)
    requires Enabled(s, a)
  {
    a.Answer? && s.callers[a.t].ip == ip && Told(s.callers[a.t].failOpen, a.ok, a.answer, v)
  }

  /** Some step of the run is. */
  predicate BroughtIn(s: State, run: seq<Step>, ip: Ip, v: Verdict)
    requires IsRun(s, run)
    decreases |run|
  {
    run != [] && (BringsIn(s, run[0], ip, v) || BroughtIn(Next(s, run[0]), run[1..], ip, v))
  }

  predicate TellsOf(c: Caller, ip: Ip, v: Verdict) {
    c.ip == ip && (c.phase.Stored? || c.phase.Returned?) && c.phase.verdict == v
  }

  /** Somebody was told the verdict about the address, or would be. */
  predicate Known(s: State, ip: Ip, v: Verdict) {
    || (ip in s.shared.cache && s.shared.cache[ip].verdict == v)
    || exists t | t in s.callers :: TellsOf(s.callers[t], ip, v)
  }

  lemma NewlyKnown(s: State, a: Step, ip: Ip, v: Verdict)
    requires Enabled(s, a) && Known(Next(s, a), ip, v)
    ensures Known(s, ip, v) || BringsIn(s, a, ip, v)
  {
    var s' := Next(s, a);
    if t :| t in s'.callers && TellsOf(s'.callers[t], ip, v) {
      assert t in s.callers ==> s.callers[t].ip == s'.callers[t].ip;
      assert t in s.callers && s.callers[t] == s'.callers[t] ==> TellsOf(s.callers[t], ip, v);
      assert a.Close? && a.t == t ==> TellsOf(s.callers[t], ip, v);
    }
  }

  lemma {:induction false} KnownWasBroughtIn(s: State, run: seq<Step>, ip: Ip, v: Verdict)
    requires IsRun(s, run) && Known(Exec(s, run), ip, v)
    ensures Known(s, ip, v) || BroughtIn(s, run, ip, v)
    decreases |run|
  {
    if run != [] {
      var next := Next(s, run[0]);
      KnownWasBroughtIn(next, run[1..], ip, v);
      if Known(next, ip, v) {
        NewlyKnown(s, run[0], ip, v);
      }
    }
  }

  /** In every run a caller is told what some answer of the provider about its address amounts to, or some failure. */
  lemma CallersHearTheProvider(run: seq<Step>, t: Tid)
    requires IsRun(INIT, run)
    requires t in Exec(INIT, run).callers && Exec(INIT, run).callers[t].phase.Returned?
    ensures var c := Exec(INIT, run).callers[t];
            BroughtIn(INIT, run, c.ip, c.phase.verdict)
  {
    var s := Exec(INIT, run);
    assert TellsOf(s.callers[t], s.callers[t].ip, s.callers[t].phase.verdict);
    KnownWasBroughtIn(INIT, run, s.callers[t].ip, s.callers[t].phase.verdict);
  }

  /** The step is an answer about the address that leaves this entry. */
  predicate BringsEntry(s: State, a: Step, ip: Ip, e: Entry)
    requires Enabled(s, a)
  {
    && a.Answer? && s.callers[a.t].ip == ip && Told(s.callers[a.t].failOpen, a.ok, a.answer, e.verdict)
    && e.exp == s.callers[a.t].phase.start + Lifetime(s.callers[a.t].ttlSec, a.ok)
  }

  predicate EntryBroughtIn(s: State, run: seq<Step>, ip: Ip, e: Entry)
    requires IsRun(s, run)
    decreases |run|
  {
    run != [] && (BringsEntry(s, run[0], ip, e) || EntryBroughtIn(Next(s, run[0]), run[1..], ip, e))
  }

  lemma NewEntry(s: State, a: Step, ip: Ip)
    requires Enabled(s, a) && ip in Next(s, a).shared.cache
    ensures var e := Next(s, a).shared.cache[ip]; Lookup(s.shared.cache, ip) == Some(e) || BringsEntry(s, a, ip, e)
  {
  }

  lemma {:induction false} EntriesWereBroughtIn(s: State, run: seq<Step>, ip: Ip)
    requires IsRun(s, run) && ip in Exec(s, run).shared.cache
    ensures var e := Exec(s, run).shared.cache[ip];
            Lookup(s.shared.cache, ip) == Some(e) || EntryBroughtIn(s, run, ip, e)
    decreases |run|
  {
    if run != [] {
      var next := Next(s, run[0]);
      EntriesWereBroughtIn(next, run[1..], ip);
      if ip in next.shared.cache {
        NewEntry(s, run[0], ip);
      }
    }
  }

  /** In every run, what is served from the cache is an answer of the run whose lifetime is not over. */
  lemma NothingStaleIsServed(run: seq<Step>, t: Tid, ch: Chan) returns (e: Entry)
    requires IsRun(INIT, run) && Enabled(Exec(INIT, run), Check(t, ch))
    requires Next(Exec(INIT, run), Check(t, ch)).callers[t].phase.Returned?
    ensures var s := Exec(INIT, run);
            && EntryBroughtIn(INIT, run, s.callers[t].ip, e) && s.callers[t].phase.now < e.exp
            && Next(s, Check(t, ch)).callers[t].phase.verdict == e.verdict
  {
    var s := Exec(INIT, run);
    ServedUntilExpiry(s, t, ch);
    EntriesWereBroughtIn(INIT, run, s.callers[t].ip);
    e := s.shared.cache[s.callers[t].ip];
  }

  /** A change of configuration forgets every answer, and leaves the queries in flight to their callers. */
  lemma ConfigForgets(s: State, t: Tid, ch: Chan)
    requires Enabled(Next(s, SetConfig), Check(t, ch))
    ensures var s' := Next(s, SetConfig);
            && s'.shared.cache == map[] && s'.shared.inFlight == s.shared.inFlight && s'.callers == s.callers
            && !Next(s', Check(t, ch)).callers[t].phase.Returned?
  {
  }

  /** A waiter goes on exactly when its channel is closed. */
  lemma WakesWhenClosed(run: seq<Step>, t: Tid)
    requires IsRun(INIT, run) && t in Exec(INIT, run).callers && Exec(INIT, run).callers[t].phase.Waiting?
    ensures var s := Exec(INIT, run);
            && s.callers[t].phase.ch in s.chans
            && (Enabled(s, Wake(t)) <==> s.chans[s.callers[t].phase.ch].closes == 1)
            && (Enabled(s, Wake(t)) ==> Next(s, Wake(t)).callers[t].phase.Entering?)
  {
    var s := Exec(INIT, run);
    RunKeepsFlights(INIT, run);
    assert CallerOk(s, t) && ChanOk(s, s.callers[t].phase.ch);
  }

  lemma AnswerAndClose(s: State, u: Tid, ok: bool, answer: Verdict) returns (s1: State, s2: State)
    requires FlightInv(s) && u in s.callers && s.callers[u].phase.Querying?
    ensures Enabled(s, Answer(u, ok, answer)) && s1 == Next(s, Answer(u, ok, answer))
    ensures Enabled(s1, Close(u)) && s2 == Next(s1, Close(u))
    ensures var ch := s.callers[u].phase.ch;
            ch in s2.chans && s2.chans[ch].closes == 1 && s2.shared == s1.shared
            && forall t | t in s.callers && t != u :: t in s2.callers && s2.callers[t] == s.callers[t]
  {
    assert CallerOk(s, u);
    s1 := Next(s, Answer(u, ok, answer));
    s2 := Next(s1, Close(u));
  }

  /** Whoever waits on a query gets its answer, once it is given, if the clock shows a time within its lifetime. */
  lemma WaiterGetsTheAnswer(s: State, t: Tid, u: Tid, ok: bool, answer: Verdict, now: int, ch: Chan)
      returns (s1: State, s2: State, s3: State, s4: State, s5: State)
    requires FlightInv(s) && t in s.callers && u in s.callers && t != u && s.callers[t].ip == s.callers[u].ip
    requires s.callers[u].phase.Querying? && s.callers[t].phase == Waiting(s.callers[u].phase.ch)
    requires now < s.callers[u].phase.start + Lifetime(s.callers[u].ttlSec, ok) && ch !in s.chans
    ensures Enabled(s, Answer(u, ok, answer)) && s1 == Next(s, Answer(u, ok, answer))
    ensures Enabled(s1, Close(u)) && s2 == Next(s1, Close(u)) && Enabled(s2, Wake(t)) && s3 == Next(s2, Wake(t))
    ensures Enabled(s3, Sample(t, now)) && s4 == Next(s3, Sample(t, now))
    ensures Enabled(s4, Check(t, ch)) && s5 == Next(s4, Check(t, ch))
    ensures s5.callers[t].phase.Returned? && Told(s.callers[u].failOpen, ok, answer, s5.callers[t].phase.verdict)
  {
    assert CallerOk(s, u);
    AnswerIsCached(s, u, ok, answer);
    s1, s2 := AnswerAndClose(s, u, ok, answer);
    s3 := Next(s2, Wake(t));
    s4 := Next(s3, Sample(t, now));
    assert s4.chans.Keys == s.chans.Keys;
    ServedUntilExpiry(s4, t, ch);
    s5 := Next(s4, Check(t, ch));
  }

  // ---- the two critical sections as the methods they are ----

  class Cache {
    var repCache: map<Ip, Entry>
    var repInFlight: map<Ip, Chan>

    ghost function View(): Shared
      reads this
    {
      Shared(repCache, repInFlight)
    }

    constructor ()
      ensures View() == INIT.shared
    {
      repCache, repInFlight := map[], map[];
    }

    /** The first critical section of checkExternal; `ch` is the channel to publish if this caller is to ask. */
    method Begin(ip: Ip, now: int, ch: Chan) returns (r: Look)
      modifies this
      ensures r == LookUp(old(View()), ip, now)
      ensures View() == if r.Ask? then old(View()).(inFlight := old(repInFlight)[ip := ch]) else old(View())
    {
      if ip in repCache {
        var e := repCache[ip];
        if e.exp > now {
          return Hit(e.verdict);
        }
      }
      if ip in repInFlight {
        return Join(repInFlight[ip]);
      }
      repInFlight := repInFlight[ip := ch];
      return Ask;
    }

    /** From the provider's answer to the end of the second critical section. */
    method Finish(ip: Ip, start: int, ttlSec: int, failOpen: bool, ok: bool, answer: Verdict) returns (v: Verdict)
      modifies this
      ensures v == Judge(failOpen, ok, answer)
      ensures View() == AfterAnswer(old(View()), ip, Entry(v, start + Ttl(ttlSec, ok)))
    {
      var ttl := ttlSec;
      if ttl <= 0 {
        ttl := 300;
      }
      v := answer;
      if !ok {
        v := Verdict(!failOpen, "provider unavailable");
        ttl := 10;
      }
      repCache := repCache[ip := Entry(v, start + ttl)];
      repInFlight := repInFlight - {ip};
    }

    method ClearOnSetConfig()
      modifies this`repCache
      ensures View() == old(View()).(cache := map[])
    {
      repCache := map[];
    }
  }
}

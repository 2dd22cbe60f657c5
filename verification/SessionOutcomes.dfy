/**
 What logins and proxy requests come to when nobody interferes: who is admitted, who
 is turned away for good, and what a registration or a closing leaves behind.
 */
module SessionOutcomes {
  import opened Options
  import opened Session
  import opened SessionHandover
  import opened SessionProxies

  /** The step is possible and leads there. */
  predicate Leads(s: State, t: Step, s': State) {
    Enabled(s, t) && s' == Next(s, t)
  }

  // ---- logins ----

  lemma AdvanceLeads(s: State, t: Step)
    requires IsAdvance(t) && t.id in s.ctls && EnabledOn(s, t, s.ctls[t.id])
    ensures Leads(s, t, Put(s, t.id, s.ctls[t.id].(phase := AfterAdvance(t))))
  {
  }

  /** The registry does not object, the response is written: the session is up, and the map has it. */
  lemma AcceptedLoginGoesLive(s: State, id: Id) returns (s1: State, s2: State, s3: State)
    requires HandoverInv(s) && id in s.ctls && s.ctls[id].phase.Admitted? && !s.ctls[id].replaced
    ensures Leads(s, Register(id, false), s1) && Leads(s1, Respond(id, true), s2) && Leads(s2, Start(id), s3)
    ensures id in s3.ctls && Live(s3.ctls[id]) && s3.ctls[id].worker.Running?
    ensures Lookup(s3.byRunId, s.ctls[id].login) == Some(id)
  {
    assert ControlOk(s, id);
    s1 := Put(s, id, s.ctls[id].(phase := Registered));
    AdvanceLeads(s, Register(id, false));
    s2 := Put(s1, id, s1.ctls[id].(phase := Ready));
    AdvanceLeads(s1, Respond(id, true));
    s3 := AfterStart(s2, id);
  }

  /** A login that will come to nothing. */
  predicate TurnedAway(c: Control) {
    (c.phase.Refused? || c.phase.Unwritten? || c.phase.Over?) && !c.started && c.worker.NoWorker? && c.handler.Idle?
  }

  /** A conflict in the registry turns a login away, and so does a response that cannot be written. */
  lemma ConflictTurnsAway(s: State, id: Id)
    requires HandoverInv(s) && ProxyInv(s) && id in s.ctls && s.ctls[id].phase.Admitted?
    ensures Enabled(s, Register(id, true)) && TurnedAway(Next(s, Register(id, true)).ctls[id])
  {
    assert ControlOk(s, id) && OwnerOk(s, id);
  }

  lemma LostResponseTurnsAway(s: State, id: Id)
    requires HandoverInv(s) && ProxyInv(s) && id in s.ctls && s.ctls[id].phase.Registered?
    ensures Enabled(s, Respond(id, false)) && TurnedAway(Next(s, Respond(id, false)).ctls[id])
  {
    assert ControlOk(s, id) && OwnerOk(s, id);
  }

  /** No step of its login but its own Del is left, and after that none. */
  lemma OnlyDeleteIsLeft(s: State, t: Step)
    requires Enabled(s, t) && t.id in s.ctls && TurnedAway(s.ctls[t.id])
    ensures t.Delete? && !s.ctls[t.id].phase.Over?
    ensures Next(s, t).ctls[t.id].phase.Over? && Lookup(Next(s, t).byRunId, s.ctls[t.id].login) != Some(t.id)
  {
  }

  lemma LocalStepLeaves(s: State, t: Step, id: Id)
    requires Enabled(s, t) && (IsWorker(t) || IsHandler(t)) && id in s.ctls && t.id != id
    ensures id in Next(s, t).ctls && Next(s, t).ctls[id] == s.ctls[id]
  {
  }

  lemma LoginStepLeaves(s: State, t: Step, id: Id)
    requires Enabled(s, t) && !IsWorker(t) && !IsHandler(t) && id in s.ctls && t.id != id && TurnedAway(s.ctls[id])
    ensures id in Next(s, t).ctls && TurnedAway(Next(s, t).ctls[id])
  {
  }

  /** Whatever else happens, it never starts. */
  lemma {:induction false} TurnedAwayForGood(s: State, run: seq<Step>, id: Id)
    requires HandoverInv(s) && IsRun(s, run) && id in s.ctls && TurnedAway(s.ctls[id])
    ensures id in Exec(s, run).ctls && TurnedAway(Exec(s, run).ctls[id])
    decreases |run|
  {
    if run != [] {
      var t := run[0];
      StepKeeps(s, t);
      if t.id == id {
        OnlyDeleteIsLeft(s, t);
      } else {
        if IsWorker(t) || IsHandler(t) {
          LocalStepLeaves(s, t, id);
        } else {
          LoginStepLeaves(s, t, id);
        }
      }
      TurnedAwayForGood(Next(s, t), run[1..], id);
    }
  }

  /** A login whose run id is free gets past Add and has nobody to wait for. */
  lemma FreeRunIdIsTaken(s: State, id: Id) returns (s1: State, s2: State, s3: State)
    requires s.lock.None? && id in s.ctls && s.ctls[id].phase.Created? && s.ctls[id].login !in s.byRunId
    ensures Leads(s, LookUp(id), s1) && Leads(s1, Store(id), s2) && Leads(s2, Proceed(id), s3)
    ensures id in s3.ctls && s3.ctls[id] == s.ctls[id].(phase := Admitted)
    ensures s3.byRunId == s.byRunId[s.ctls[id].login := id] && s3.lock.None?
  {
    s1 := AfterLookUp(s, id);
    s2 := AfterStore(s1, id);
    s3 := Put(s2, id, s2.ctls[id].(phase := Admitted));
    AdvanceLeads(s2, Proceed(id));
  }

  lemma LookUpLeads(s: State, id: Id)
    requires id in s.ctls && s.ctls[id].phase.Created? && s.lock.None?
    ensures Leads(s, LookUp(id), AfterLookUp(s, id))
  {
  }

  lemma ReplacingLeads(s: State, id: Id, prior: Id)
    requires id in s.ctls && prior in s.ctls
    ensures s.ctls[id].phase == Locked(Some(prior)) ==> Leads(s, Mark(id), AfterMark(s, id))
    ensures s.ctls[id].phase.Marked? && s.ctls[id].phase.prior == prior ==> Leads(s, Retire(id), AfterRetire(s, id))
    ensures s.ctls[id].phase == Retired(prior) ==> Leads(s, Store(id), AfterStore(s, id))
  {
  }

  /** What Replaced leaves behind in the two halves of its work. */
  lemma PriorIsReplaced(s: State, id: Id, prior: Id)
    requires id in s.ctls && prior in s.ctls && prior != id && s.ctls[id].phase == Locked(Some(prior))
    ensures var s2 := AfterMark(s, id);
            && s2.ctls[id].phase == Marked(prior, s.ctls[prior].started) && s2.byRunId == s.byRunId
            && var s3 := AfterRetire(s2, id);
            && s3.ctls[id].phase == Retired(prior) && s3.ctls[id].login == s.ctls[id].login && s3.byRunId == s.byRunId
            && prior in s3.ctls && s3.ctls[prior].replaced
            && s3.ctls[prior].closes == s.ctls[prior].closes + if s.ctls[prior].started then 0 else 1
  {
  }

  /** A further login replaces the control there is, releases it if it has no worker, takes its entry, and waits for it. */
  lemma NewLoginTakesOver(s: State, id: Id, prior: Id) returns (s1: State, s2: State, s3: State, s4: State)
    requires HandoverInv(s) && s.lock.None? && id in s.ctls && s.ctls[id].phase.Created?
    requires Lookup(s.byRunId, s.ctls[id].login) == Some(prior)
    ensures Leads(s, LookUp(id), s1) && Leads(s1, Mark(id), s2) && Leads(s2, Retire(id), s3) && Leads(s3, Store(id), s4)
    ensures prior in s.ctls && prior in s4.ctls && id in s4.ctls
    ensures Lookup(s4.byRunId, s.ctls[id].login) == Some(id) && s4.ctls[id].phase == Waiting(Some(prior))
    ensures s4.ctls[prior].replaced && (s4.ctls[prior].closes > 0 <==> s.ctls[prior].closes > 0 || !s.ctls[prior].started)
  {
    assert ControlOk(s, id) && EntryOk(s, s.ctls[id].login);
    LookUpLeads(s, id);
    s1 := AfterLookUp(s, id);
    assert prior != id && s1.ctls == s.ctls[id := s.ctls[id].(phase := Locked(Some(prior)))];
    PriorIsReplaced(s1, id, prior);
    ReplacingLeads(s1, id, prior);
    s2 := AfterMark(s1, id);
    ReplacingLeads(s2, id, prior);
    s3 := AfterRetire(s2, id);
    ReplacingLeads(s3, id, prior);
    s4 := AfterStore(s3, id);
  }

  // ---- proxies ----

  /** Between two handler calls of a live control. */
  ghost predicate Serving(s: State, id: Id) {
    ProxyInv(s) && id in s.ctls && s.ctls[id].worker.Running? && s.ctls[id].handler.Idle?
  }

  /** The ports of one more proxy stay within the limit; a limit of zero or less is none. */
  ghost predicate Fits(s: State, id: Id, ports: nat)
    requires id in s.ctls
  {
    s.limit > 0 ==> PortSum(s.ctls[id].proxies) + ports <= s.limit
  }

  /** A request is refused for its ports exactly when they do not fit, and then nothing is changed. */
  lemma RefusedExactlyIfTooMany(s: State, id: Id, name: Name, ports: nat)
    requires Serving(s, id)
    ensures var c := Next(s, NewProxy(id, name, ports)).ctls[id];
            if Fits(s, id, ports) then c.handler.Reserved? && c.handler.name == name && c.handler.pxy.ports == ports
            else c == s.ctls[id] && Next(s, NewProxy(id, name, ports)).manager == s.manager
  {
    assert OwnerOk(s, id);
  }

  /** Only the control of a request changes, and it ends as it was but for its table and its ports. */
  predicate EndsWith(s: State, s': State, id: Id, proxies: map<Name, Proxy>, manager: map<Name, Proxy>, ports: int)
    requires id in s.ctls
  {
    && s'.ctls == s.ctls[id := s.ctls[id].(proxies := proxies, portsUsed := ports)]
    && s'.manager == manager && s'.byRunId == s.byRunId && s'.lock == s.lock && s'.limit == s.limit
  }

  /** The state in which only one control and the manager differ. */
  function With(s: State, id: Id, c: Control, manager: map<Name, Proxy>): State {
    Put(s, id, c).(manager := manager)
  }

  lemma HandlerLeads(s: State, t: Step)
    requires IsHandler(t) && !t.NewProxy? && t.id in s.ctls && EnabledOn(s, t, s.ctls[t.id])
    ensures Leads(s, t, With(s, t.id, AfterHandler(s, t, s.ctls[t.id]), ManagerAfter(s, t, s.ctls[t.id])))
  {
  }

  /** What a request whose ports fit counts ahead. */
  function Counted(s: State, id: Id, name: Name, ports: nat): State
    requires id in s.ctls
  {
    var c := s.ctls[id];
    Put(s, id, c.(portsUsed := c.portsUsed + (if s.limit > 0 then ports else 0),
                  handler := Reserved(name, Proxy(id, s.serials, ports)))).(serials := s.serials + 1)
  }

  lemma RequestIsCounted(s: State, id: Id, name: Name, ports: nat)
    requires Serving(s, id) && Fits(s, id, ports)
    ensures Leads(s, NewProxy(id, name, ports), Counted(s, id, name, ports))
  {
    assert OwnerOk(s, id);
  }

  /** Whoever's name was free at the check, and is still free once the proxy runs, has it in both tables. */
  lemma FreeNameIsEntered(s: State, id: Id) returns (s1: State, s2: State, s3: State, s4: State)
    requires id in s.ctls && s.ctls[id].handler.Reserved? && s.ctls[id].handler.name !in s.manager
    ensures Leads(s, CheckName(id), s1) && Leads(s1, RunProxy(id, true), s2)
    ensures Leads(s2, AddToManager(id), s3) && Leads(s3, AddToTable(id), s4)
    ensures var c, name, pxy := s.ctls[id], s.ctls[id].handler.name, s.ctls[id].handler.pxy;
            s4 == With(s, id, c.(proxies := c.proxies[name := pxy], handler := Idle), s.manager[name := pxy])
  {
    var c, name, pxy := s.ctls[id], s.ctls[id].handler.name, s.ctls[id].handler.pxy;
    HandlerLeads(s, CheckName(id));
    s1 := With(s, id, c.(handler := Checked(name, pxy)), s.manager);
    HandlerLeads(s1, RunProxy(id, true));
    s2 := With(s1, id, c.(handler := Ran(name, pxy)), s.manager);
    HandlerLeads(s2, AddToManager(id));
    s3 := With(s2, id, c.(handler := Added(name, pxy)), s.manager[name := pxy]);
    HandlerLeads(s3, AddToTable(id));
    s4 := With(s3, id, c.(proxies := c.proxies[name := pxy], handler := Idle), s.manager[name := pxy]);
  }

  /** A free name whose ports fit is registered in both tables and charged, and nothing else changes. */
  lemma ProxyIsRegistered(s: State, id: Id, name: Name, ports: nat) returns (s1: State, s2: State, s3: State, s4: State, s5: State)
    requires Serving(s, id) && name !in s.manager && Fits(s, id, ports)
    ensures Leads(s, NewProxy(id, name, ports), s1) && Leads(s1, CheckName(id), s2) && Leads(s2, RunProxy(id, true), s3)
    ensures Leads(s3, AddToManager(id), s4) && Leads(s4, AddToTable(id), s5)
    ensures var c, pxy := s.ctls[id], Proxy(id, s.serials, ports);
            EndsWith(s, s5, id, c.proxies[name := pxy], s.manager[name := pxy],
                     c.portsUsed + if s.limit > 0 then ports else 0)
  {
    RequestIsCounted(s, id, name, ports);
    s1 := Counted(s, id, name, ports);
    s2, s3, s4, s5 := FreeNameIsEntered(s1, id);
  }

  /** The rollback gives back what was counted. */
  lemma RollBackUndoes(s: State, id: Id)
    requires id in s.ctls && s.ctls[id].handler.Failing?
    ensures var c := s.ctls[id];
            Leads(s, RollBack(id), With(s, id, c.(portsUsed := c.portsUsed - (if s.limit > 0 then c.handler.pxy.ports else 0),
                                                  handler := Idle), s.manager))
  {
    HandlerLeads(s, RollBack(id));
  }

  /** A name that is taken leaves everything as it was. */
  lemma TakenNameIsRefused(s: State, id: Id, name: Name, ports: nat) returns (s1: State, s2: State, s3: State)
    requires Serving(s, id) && name in s.manager && Fits(s, id, ports)
    ensures Leads(s, NewProxy(id, name, ports), s1) && Leads(s1, CheckName(id), s2) && Leads(s2, RollBack(id), s3)
    ensures EndsWith(s, s3, id, s.ctls[id].proxies, s.manager, s.ctls[id].portsUsed)
  {
    RequestIsCounted(s, id, name, ports);
    s1 := Counted(s, id, name, ports);
    HandlerLeads(s1, CheckName(id));
    s2 := With(s1, id, s1.ctls[id].(handler := Failing(s1.ctls[id].handler.pxy)), s.manager);
    RollBackUndoes(s2, id);
    s3 := Next(s2, RollBack(id));
  }

  /** A proxy that does not run, and one whose name somebody else takes while it starts, is rolled back. */
  lemma FailedProxyIsRolledBack(s: State, id: Id, t: Step)
    requires id in s.ctls
    requires (t == RunProxy(id, false) && s.ctls[id].handler.Checked?)
          || (t == AddToManager(id) && s.ctls[id].handler.Ran? && s.ctls[id].handler.name in s.manager)
    ensures Leads(s, t, With(s, id, s.ctls[id].(handler := Failing(s.ctls[id].handler.pxy)), s.manager))
  {
    HandlerLeads(s, t);
  }

  /** A proxy that is closed leaves both tables, and its ports are given back. */
  lemma ProxyIsClosed(s: State, id: Id, name: Name) returns (s1: State, s2: State)
    requires Serving(s, id) && name in s.ctls[id].proxies
    ensures Leads(s, CloseProxy(id, name), s1) && Leads(s1, DropFromManager(id), s2)
    ensures var c := s.ctls[id];
            EndsWith(s, s2, id, c.proxies - {name}, s.manager - {name},
                     c.portsUsed - if s.limit > 0 then c.proxies[name].ports else 0)
  {
    var c := s.ctls[id];
    HandlerLeads(s, CloseProxy(id, name));
    s1 := With(s, id, RemoveProxy(c, s.limit, name).(handler := Closing(name, c.proxies[name])), s.manager);
    HandlerLeads(s1, DropFromManager(id));
    s2 := With(s1, id, RemoveProxy(c, s.limit, name), s.manager - {name});
  }

  /** Any other name is ignored. */
  lemma UnknownNameIsIgnored(s: State, id: Id, name: Name)
    requires Serving(s, id) && name !in s.ctls[id].proxies
    ensures Leads(s, CloseProxy(id, name), s)
  {
    HandlerLeads(s, CloseProxy(id, name));
    assert s.ctls[id := s.ctls[id]] == s.ctls;
  }
}

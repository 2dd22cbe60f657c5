/** Who owns which proxy name, and how many ports a client is charged for. */
module SessionProxies {
  import opened Options
  import opened Session
  import opened SessionHandover

  // ---- ports charged for a table of proxies ----

  ghost function PortSum(m: map<Name, Proxy>): nat
    decreases |m|
  {
    if m == map[] then 0
    else
      var n :| n in m;
      assert (m - {n}).Keys == m.Keys - {n};
      m[n].ports + PortSum(m - {n})
  }

  /** The sum does not depend on the order in which names are taken out. */
  lemma {:induction false} PortSumRemove(m: map<Name, Proxy>, n: Name)
    requires n in m
    ensures PortSum(m) == m[n].ports + PortSum(m - {n})
    decreases |m|
  {
    var k :| k in m && PortSum(m) == m[k].ports + PortSum(m - {k});
    if k != n {
      assert (m - {k}).Keys == m.Keys - {k} && (m - {n}).Keys == m.Keys - {n};
      PortSumRemove(m - {k}, n);
      PortSumRemove(m - {n}, k);
      assert m - {k} - {n} == m - {n} - {k};
    }
  }

  lemma PortSumInsert(m: map<Name, Proxy>, n: Name, p: Proxy)
    requires n !in m
    ensures PortSum(m[n := p]) == PortSum(m) + p.ports
  {
    PortSumRemove(m[n := p], n);
    assert m[n := p] - {n} == m;
  }

  // ---- the invariant ----

  /** `name` is registered in the manager as `p`, on behalf of control `id`. */
  predicate Owns(manager: map<Name, Proxy>, id: Id, name: Name, p: Proxy) {
    p.owner == id && Lookup(manager, name) == Some(p)
  }

  predicate TableOk(manager: map<Name, Proxy>, id: Id, c: Control) {
    && (forall n | n in c.proxies :: Owns(manager, id, n, c.proxies[n]))
    && (c.worker.Draining? ==> forall n | n in c.worker.todo :: Owns(manager, id, n, c.worker.todo[n]))
    && (c.handler.Added? || c.handler.Closing? ==>
          Owns(manager, id, c.handler.name, c.handler.pxy) && c.handler.name !in c.proxies)
    && (!c.handler.Idle? ==> c.worker.Running? && c.handler.pxy.owner == id)
    && (!c.worker.Running? && !c.worker.Stopped? ==> c.proxies == map[])
  }

  /** Where a control keeps a name it has in the manager. */
  predicate Holds(c: Control, n: Name, p: Proxy) {
    || (n in c.proxies && c.proxies[n] == p)
    || c.handler == Added(n, p)
    || c.handler == Closing(n, p)
    || (c.worker.Draining? && n in c.worker.todo && c.worker.todo[n] == p)
  }

  predicate NameOk(s: State, n: Name)
    requires n in s.manager
  {
    var p := s.manager[n];
    p.owner in s.ctls && Holds(s.ctls[p.owner], n, p)
  }

  /** What a handler in progress has counted ahead of the proxy table. */
  function Pending(h: Handler): nat {
    if h.Idle? || h.Closing? then 0 else h.pxy.ports
  }

  ghost predicate PortsOk(limit: int, c: Control) {
    limit > 0 && (c.worker.NoWorker? || c.worker.Running? || c.worker.Stopped?) ==>
      c.portsUsed == PortSum(c.proxies) + Pending(c.handler) && c.portsUsed <= limit
  }

  ghost predicate OwnerOk(s: State, id: Id)
    requires id in s.ctls
  {
    TableOk(s.manager, id, s.ctls[id]) && PortsOk(s.limit, s.ctls[id])
  }

  ghost predicate ProxyInv(s: State) {
    && (forall id {:trigger OwnerOk(s, id)} | id in s.ctls :: OwnerOk(s, id))
    && (forall n {:trigger NameOk(s, n)} | n in s.manager :: NameOk(s, n))
  }

  // ---- steps of the login goroutine ----

  predicate SameProxies(c: Control, d: Control) {
    && c.proxies == d.proxies && c.handler == d.handler && c.portsUsed == d.portsUsed
    && (c.worker == d.worker || (c.worker.NoWorker? && d.worker.Running?))
  }

  lemma LoginLeavesProxies(s: State, t: Step, x: Id)
    requires HandoverInv(s) && Enabled(s, t) && !IsWorker(t) && !IsHandler(t)
    ensures Next(s, t).manager == s.manager && Next(s, t).limit == s.limit
    ensures x in s.ctls ==> x in Next(s, t).ctls && SameProxies(s.ctls[x], Next(s, t).ctls[x])
    ensures x in Next(s, t).ctls && x !in s.ctls ==> Next(s, t).ctls[x] == NewControl(Next(s, t).ctls[x].login)
  {
    assert !t.Create? ==> ControlOk(s, t.id);
  }

  lemma LoginKeepsProxies(s: State, t: Step)
    requires HandoverInv(s) && ProxyInv(s) && Enabled(s, t) && !IsWorker(t) && !IsHandler(t)
    ensures ProxyInv(Next(s, t))
  {
    var s' := Next(s, t);
    LoginLeavesProxies(s, t, 0);
    forall x | x in s'.ctls ensures OwnerOk(s', x) {
      LoginLeavesProxies(s, t, x);
      assert x in s.ctls ==> OwnerOk(s, x);
    }
    forall n | n in s'.manager ensures NameOk(s', n) {
      assert NameOk(s, n);
      LoginLeavesProxies(s, t, s.manager[n].owner);
    }
  }

  // ---- steps of the worker and of the handlers ----

  /** A name enters the manager only when free, and leaves it only by its owner's doing. */
  lemma OnlyOwnNamesChange(s: State, t: Step, c: Control, n: Name)
    requires (IsWorker(t) || IsHandler(t)) && EnabledOn(s, t, c) && TableOk(s.manager, t.id, c)
    ensures var m := ManagerAfter(s, t, c);
            && (n in s.manager && s.manager[n].owner != t.id ==> Lookup(m, n) == Lookup(s.manager, n))
            && (n in m && n !in s.manager ==> m[n].owner == t.id)
            && (n in m && n in s.manager ==> m[n] == s.manager[n])
  {
  }

  lemma OtherTableKept(s: State, t: Step, c: Control, x: Id, d: Control)
    requires (IsWorker(t) || IsHandler(t)) && EnabledOn(s, t, c) && TableOk(s.manager, t.id, c)
    requires x != t.id && TableOk(s.manager, x, d)
    ensures TableOk(ManagerAfter(s, t, c), x, d)
  {
    forall n | n in s.manager
      ensures s.manager[n].owner == x ==> Lookup(ManagerAfter(s, t, c), n) == Lookup(s.manager, n)
    {
      OnlyOwnNamesChange(s, t, c, n);
    }
  }

  lemma WorkerTableKept(s: State, t: Step, c: Control)
    requires IsWorker(t) && EnabledOn(s, t, c) && TableOk(s.manager, t.id, c)
    ensures TableOk(ManagerAfter(s, t, c), t.id, AfterWorker(s, t, c))
  {
  }

  lemma HandlerTableKept(s: State, t: Step, c: Control)
    requires IsHandler(t) && EnabledOn(s, t, c) && TableOk(s.manager, t.id, c)
    ensures TableOk(ManagerAfter(s, t, c), t.id, AfterHandler(s, t, c))
  {
  }

  lemma OwnTableKept(s: State, t: Step, c: Control)
    requires (IsWorker(t) || IsHandler(t)) && EnabledOn(s, t, c) && TableOk(s.manager, t.id, c)
    ensures TableOk(ManagerAfter(s, t, c), t.id, AfterLocal(s, t, c))
  {
    if IsWorker(t) {
      WorkerTableKept(s, t, c);
    } else {
      HandlerTableKept(s, t, c);
    }
  }

  lemma OwnPortsKept(s: State, t: Step, c: Control)
    requires (IsWorker(t) || IsHandler(t)) && EnabledOn(s, t, c) && TableOk(s.manager, t.id, c)
    requires PortsOk(s.limit, c)
    ensures PortsOk(s.limit, AfterLocal(s, t, c))
  {
    if t.AddToTable? {
      PortSumInsert(c.proxies, c.handler.name, c.handler.pxy);
    } else if t.CloseProxy? && t.name in c.proxies {
      PortSumRemove(c.proxies, t.name);
    }
  }

  lemma WorkerNamesHeld(s: State, t: Step, c: Control, n: Name)
    requires IsWorker(t) && EnabledOn(s, t, c) && TableOk(s.manager, t.id, c)
    requires n in ManagerAfter(s, t, c) && ManagerAfter(s, t, c)[n].owner == t.id
    requires n in s.manager ==> Holds(c, n, s.manager[n])
    ensures Holds(AfterLocal(s, t, c), n, ManagerAfter(s, t, c)[n])
  {
  }

  lemma HandlerNamesHeld(s: State, t: Step, c: Control, n: Name)
    requires IsHandler(t) && EnabledOn(s, t, c) && TableOk(s.manager, t.id, c)
    requires n in ManagerAfter(s, t, c) && ManagerAfter(s, t, c)[n].owner == t.id
    requires n in s.manager ==> Holds(c, n, s.manager[n])
    ensures Holds(AfterLocal(s, t, c), n, ManagerAfter(s, t, c)[n])
  {
  }

  /** A name in the new manager is held by the control that acts, or was there before on behalf of another. */
  predicate HeldOrKept(manager: map<Name, Proxy>, manager': map<Name, Proxy>, id: Id, c': Control, n: Name)
    requires n in manager'
  {
    if manager'[n].owner == id then Holds(c', n, manager'[n]) else Lookup(manager, n) == Some(manager'[n])
  }

  lemma ChangeKeepsProxies(s: State, s': State, id: Id)
    requires ProxyInv(s) && id in s'.ctls && s'.ctls == s.ctls[id := s'.ctls[id]] && s'.limit == s.limit
    requires OwnerOk(s', id)
    requires forall x {:trigger OwnerOk(s, x)} | x in s.ctls && x != id :: TableOk(s'.manager, x, s.ctls[x])
    requires forall n {:trigger NameOk(s', n)} | n in s'.manager :: HeldOrKept(s.manager, s'.manager, id, s'.ctls[id], n)
    ensures ProxyInv(s')
  {
    forall x | x in s'.ctls ensures OwnerOk(s', x) {
      assert x != id ==> OwnerOk(s, x);
    }
    forall n | n in s'.manager ensures NameOk(s', n) {
      assert n in s.manager ==> NameOk(s, n);
    }
  }

  lemma LocalNameKept(s: State, t: Step, c: Control, n: Name)
    requires (IsWorker(t) || IsHandler(t)) && t.id in s.ctls && c == s.ctls[t.id] && EnabledOn(s, t, c)
    requires ProxyInv(s) && n in ManagerAfter(s, t, c)
    ensures HeldOrKept(s.manager, ManagerAfter(s, t, c), t.id, AfterLocal(s, t, c), n)
  {
    assert OwnerOk(s, t.id) && (n in s.manager ==> NameOk(s, n));
    OnlyOwnNamesChange(s, t, c, n);
    if ManagerAfter(s, t, c)[n].owner == t.id {
      if IsWorker(t) {
        WorkerNamesHeld(s, t, c, n);
      } else {
        HandlerNamesHeld(s, t, c, n);
      }
    }
  }

  lemma LocalKeepsProxies(s: State, t: Step, c: Control, s': State)
    requires (IsWorker(t) || IsHandler(t)) && t.id in s.ctls && c == s.ctls[t.id] && EnabledOn(s, t, c)
    requires ProxyInv(s) && s'.limit == s.limit
    requires s'.ctls == s.ctls[t.id := AfterLocal(s, t, c)] && s'.manager == ManagerAfter(s, t, c)
    ensures ProxyInv(s')
  {
    assert OwnerOk(s, t.id);
    OwnTableKept(s, t, c);
    OwnPortsKept(s, t, c);
    forall x | x in s.ctls && x != t.id ensures TableOk(s'.manager, x, s.ctls[x]) {
      assert OwnerOk(s, x);
      OtherTableKept(s, t, c, x, s.ctls[x]);
    }
    forall n | n in s'.manager ensures HeldOrKept(s.manager, s'.manager, t.id, s'.ctls[t.id], n) {
      LocalNameKept(s, t, c, n);
    }
    ChangeKeepsProxies(s, s', t.id);
  }

  lemma {:induction false} RunKeepsProxies(s: State, run: seq<Step>)
    requires HandoverInv(s) && ProxyInv(s) && IsRun(s, run)
    ensures ProxyInv(Exec(s, run)) && Exec(s, run).limit == s.limit
    decreases |run|
  {
    if run != [] {
      var t := run[0];
      StepKeeps(s, t);
      if IsWorker(t) || IsHandler(t) {
        LocalKeepsProxies(s, t, s.ctls[t.id], Next(s, t));
      } else {
        LoginKeepsProxies(s, t);
        LoginLeavesProxies(s, t, 0);
      }
      RunKeepsProxies(Next(s, t), run[1..]);
    }
  }

  // ---- the theorems ----

  /** A control's table only lists what the manager has under that name, and no name is in two tables. */
  lemma TablesAgreeWithManager(limit: int, run: seq<Step>, id: Id, other: Id, n: Name)
    requires IsRun(Init(limit), run)
    requires var s := Exec(Init(limit), run);
             id in s.ctls && other in s.ctls && n in s.ctls[id].proxies
    ensures var s := Exec(Init(limit), run);
            && Lookup(s.manager, n) == Some(s.ctls[id].proxies[n]) && s.ctls[id].proxies[n].owner == id
            && (n in s.ctls[other].proxies ==> other == id)
  {
    RunKeeps(Init(limit), run);
    RunKeepsProxies(Init(limit), run);
    var s := Exec(Init(limit), run);
    assert OwnerOk(s, id) && OwnerOk(s, other);
  }

  /** A name leaves the manager only by a step of the control that registered it, and is never overwritten. */
  lemma OnlyTheOwnerRemoves(limit: int, run: seq<Step>, t: Step, n: Name)
    requires IsRun(Init(limit), run) && Enabled(Exec(Init(limit), run), t) && n in Exec(Init(limit), run).manager
    ensures var s := Exec(Init(limit), run);
            || Lookup(Next(s, t).manager, n) == Some(s.manager[n])
            || (n !in Next(s, t).manager && t.id == s.manager[n].owner && (t.CloseNext? || t.DropFromManager?))
  {
    RunKeeps(Init(limit), run);
    RunKeepsProxies(Init(limit), run);
    var s := Exec(Init(limit), run);
    if IsWorker(t) || IsHandler(t) {
      assert OwnerOk(s, t.id);
      OnlyOwnNamesChange(s, t, s.ctls[t.id], n);
    } else {
      LoginLeavesProxies(s, t, 0);
    }
  }

  /** Once WaitClosed can return, the control has left nothing behind in either table. */
  lemma ReleasedControlOwnsNothing(limit: int, run: seq<Step>, id: Id, n: Name)
    requires IsRun(Init(limit), run)
    requires id in Exec(Init(limit), run).ctls && Exec(Init(limit), run).ctls[id].closes > 0
    ensures var s := Exec(Init(limit), run);
            s.ctls[id].proxies == map[] && (n in s.manager ==> s.manager[n].owner != id)
  {
    RunKeeps(Init(limit), run);
    RunKeepsProxies(Init(limit), run);
    var s := Exec(Init(limit), run);
    assert OwnerOk(s, id) && ControlOk(s, id);
    assert n in s.manager ==> NameOk(s, n);
  }

  /** A login past WaitClosed finds no proxy of the control it replaced. */
  lemma AdmittedAfterCleanup(limit: int, run: seq<Step>, id: Id, n: Name)
    requires IsRun(Init(limit), run) && Enabled(Exec(Init(limit), run), Proceed(id))
    ensures var s := Exec(Init(limit), run);
            var prev := s.ctls[id].phase.prev;
            prev.Some? ==> prev.value in s.ctls && s.ctls[prev.value].login == s.ctls[id].login
                           && s.ctls[prev.value].proxies == map[]
                           && (n in s.manager ==> s.manager[n].owner != prev.value)
  {
    var s := Exec(Init(limit), run);
    RunKeeps(Init(limit), run);
    assert ControlOk(s, id);
    if s.ctls[id].phase.prev.Some? {
      ReleasedControlOwnsNothing(limit, run, s.ctls[id].phase.prev.value, n);
    }
  }

  /** The ports a client is charged for are those of its table plus the proxy being registered, within the limit. */
  lemma PortsAreAccounted(limit: int, run: seq<Step>, id: Id)
    requires IsRun(Init(limit), run) && limit > 0 && id in Exec(Init(limit), run).ctls
    ensures var c := Exec(Init(limit), run).ctls[id];
            c.worker.Running? ==>
              && c.portsUsed == PortSum(c.proxies) + Pending(c.handler)
              && PortSum(c.proxies) <= c.portsUsed <= limit
              && (c.handler.Idle? ==> c.portsUsed == PortSum(c.proxies))
  {
    RunKeeps(Init(limit), run);
    RunKeepsProxies(Init(limit), run);
    assert OwnerOk(Exec(Init(limit), run), id);
  }
}

/**
 The session handover of frps as a state machine.

 A client that logs in again under the same run id replaces its old control. The
 goroutines taking part are the login goroutine of each control (RegisterControl
 followed by the rest of the Login branch of handleConnection), the worker of each
 started control, and the dispatcher that runs the NewProxy and CloseProxy handlers
 of a control one after another. Every step below is one critical section, or one
 effect outside any lock, of one of those goroutines; a run interleaves them in
 any order. `cm.mu` is held over several steps and is therefore part of the state.
 */
module Session {
  import opened Options

  type RunId = string
  type Name = string
  type Id = nat  // identifies a control object

  /** A proxy object: the control it was registered on, its identity, the ports it counts for. */
  datatype Proxy = Proxy(owner: Id, serial: nat, ports: nat)

  /** Where the login goroutine of a control stands. */
  datatype Login =
    | Created                           // NewControl has returned
    | Locked(found: Option<Id>)         // Add holds cm.mu and has looked the run id up
    | Marked(prior: Id, ran: bool)      // Replaced(prior) has left ctl.mu; ran is the started it read there
    | Retired(prior: Id)                // Replaced(prior) has returned
    | Waiting(prev: Option<Id>)         // Add has returned; in WaitClosed if there was a prior control
    | Admitted                          // about to enter the client registry
    | Refused                           // the registry reported a conflict
    | Registered                        // RegisterControl has returned; writing LoginResp
    | Unwritten                         // LoginResp could not be written
    | Ready                             // about to call Start
    | Watching                          // blocked in WaitClosed on its own control
    | Reaping                           // WaitClosed has returned, Del is next
    | Over

  datatype Worker =
    | NoWorker
    | Running                           // the dispatcher is reading messages
    | Stopped                           // the dispatcher is done
    | Draining(todo: map<Name, Proxy>)  // closing what the proxy table held
    | Leaving                           // every proxy closed, doneCh still open
    | Finished                          // closeDone has returned

  /** Where the dispatcher stands inside a handler. */
  datatype Handler =
    | Idle
    | Reserved(name: Name, pxy: Proxy)  // ports counted, name not yet checked
    | Checked(name: Name, pxy: Proxy)   // Exist said no
    | Ran(name: Name, pxy: Proxy)       // pxy.Run succeeded
    | Added(name: Name, pxy: Proxy)     // in the manager, not yet in ctl.proxies
    | Failing(pxy: Proxy)               // the deferred rollback is due
    | Closing(name: Name, pxy: Proxy)   // out of ctl.proxies, still in the manager

  datatype Control = Control(
    login: RunId,        // loginMsg.RunID
    runID: RunId,        // ctl.runID
    started: bool,
    replaced: bool,
    replacements: nat,   // how many times Replaced was called on it
    closes: nat,         // how many times closeDone was called on it, were there no doneOnce
    phase: Login,
    worker: Worker,
    handler: Handler,
    proxies: map<Name, Proxy>,
    portsUsed: int)

  datatype State = State(
    ctls: map<Id, Control>,    // every control ever created
    byRunId: map<RunId, Id>,   // ControlManager.ctlsByRunID
    lock: Option<Id>,          // whose login goroutine holds cm.mu across steps
    manager: map<Name, Proxy>, // proxy.Manager.pxys
    serials: nat,
    limit: int)                // MaxPortsPerClient

  // ---- what the critical sections do to one control ----

  function NewControl(login: RunId): Control {
    Control(login, login, false, false, 0, 0, Created, NoWorker, Idle, map[], 0)
  }

  function MarkReplaced(c: Control): Control {
    c.(runID := "", replaced := true, replacements := c.replacements + 1)
  }

  function CloseDone(c: Control): Control {
    c.(closes := c.closes + 1)
  }

  function StartUp(c: Control): Control {
    if c.replaced then c else c.(started := true, worker := Running)
  }

  function TakeProxies(c: Control): Control {
    c.(worker := Draining(c.proxies), proxies := map[])
  }

  /** The limit check at the top of RegisterProxy: None when the ports would not fit. */
  function Reserve(c: Control, limit: int, ports: nat): Option<Control> {
    if limit <= 0 then Some(c)
    else if c.portsUsed + ports > limit then None
    else Some(c.(portsUsed := c.portsUsed + ports))
  }

  /** The deferred rollback, and the decrement in CloseProxy. */
  function GiveBack(c: Control, limit: int, ports: nat): Control {
    if limit > 0 then c.(portsUsed := c.portsUsed - ports) else c
  }

  function InsertProxy(c: Control, name: Name, pxy: Proxy): Control {
    c.(proxies := c.proxies[name := pxy])
  }

  function RemoveProxy(c: Control, limit: int, name: Name): Control
    requires name in c.proxies
  {
    GiveBack(c.(proxies := c.proxies - {name}), limit, c.proxies[name].ports)
  }

  // ---- the steps ----

  datatype Step =
    // login goroutine
    | Create(id: Id, login: RunId)
    | LookUp(id: Id)
    | Mark(id: Id)
    | Retire(id: Id)
    | Store(id: Id)
    | Proceed(id: Id)
    | Register(id: Id, conflict: bool)
    | Respond(id: Id, written: bool)
    | Start(id: Id)
    | Wake(id: Id)
    | Delete(id: Id)
    // worker
    | Stop(id: Id)
    | Take(id: Id)
    | CloseNext(id: Id, name: Name)
    | Depart(id: Id)
    | Finish(id: Id)
    // handlers
    | NewProxy(id: Id, name: Name, ports: nat)
    | CheckName(id: Id)
    | RunProxy(id: Id, ok: bool)
    | AddToManager(id: Id)
    | AddToTable(id: Id)
    | RollBack(id: Id)
    | CloseProxy(id: Id, name: Name)
    | DropFromManager(id: Id)

  predicate EnabledOn(s: State, t: Step, c: Control)
    requires !t.Create?
  {
    match t
    case LookUp(_) => c.phase.Created? && s.lock.None?
    case Mark(_) => c.phase.Locked? && c.phase.found.Some? && c.phase.found.value in s.ctls
    case Retire(_) => c.phase.Marked? && c.phase.prior in s.ctls
    case Store(_) => c.phase == Locked(None) || c.phase.Retired?
    case Proceed(_) =>
      c.phase.Waiting? &&
      (c.phase.prev.None? || (c.phase.prev.value in s.ctls && s.ctls[c.phase.prev.value].closes > 0))
    case Register(_, _) => c.phase.Admitted?
    case Respond(_, _) => c.phase.Registered?
    case Start(_) => c.phase.Ready?
    case Wake(_) => c.phase.Watching? && c.closes > 0
    case Delete(_) => (c.phase.Refused? || c.phase.Unwritten? || c.phase.Reaping?) && s.lock.None?
    case Stop(_) => c.worker.Running? && c.handler.Idle?
    case Take(_) => c.worker.Stopped?
    case CloseNext(_, n) => c.worker.Draining? && n in c.worker.todo
    case Depart(_) => c.worker == Draining(map[])
    case Finish(_) => c.worker.Leaving?
    case NewProxy(_, _, _) => c.worker.Running? && c.handler.Idle?
    case CheckName(_) => c.handler.Reserved?
    case RunProxy(_, _) => c.handler.Checked?
    case AddToManager(_) => c.handler.Ran?
    case AddToTable(_) => c.handler.Added?
    case RollBack(_) => c.handler.Failing?
    case CloseProxy(_, _) => c.worker.Running? && c.handler.Idle?
    case DropFromManager(_) => c.handler.Closing?
  }

  predicate Enabled(s: State, t: Step) {
    if t.Create? then t.id !in s.ctls
    else t.id in s.ctls && EnabledOn(s, t, s.ctls[t.id])
  }

  function Put(s: State, id: Id, c: Control): State {
    s.(ctls := s.ctls[id := c])
  }

  // ---- the steps of a login that others take notice of ----

  function AfterLookUp(s: State, id: Id): State
    requires id in s.ctls
  {
    var c := s.ctls[id];
    Put(s, id, c.(phase := Locked(Lookup(s.byRunId, c.login)))).(lock := Some(id))
  }

  /** The critical section of Replaced. */
  function AfterMark(s: State, id: Id): State
    requires id in s.ctls && s.ctls[id].phase.Locked?
    requires s.ctls[id].phase.found.Some? && s.ctls[id].phase.found.value in s.ctls
  {
    var prior := s.ctls[id].phase.found.value;
    var s' := Put(s, prior, MarkReplaced(s.ctls[prior]));
    Put(s', id, s'.ctls[id].(phase := Marked(prior, s.ctls[prior].started)))
  }

  /** The rest of Replaced. */
  function AfterRetire(s: State, id: Id): State
    requires id in s.ctls && s.ctls[id].phase.Marked? && s.ctls[id].phase.prior in s.ctls
  {
    var prior := s.ctls[id].phase.prior;
    var s' := if s.ctls[id].phase.ran then s else Put(s, prior, CloseDone(s.ctls[prior]));
    Put(s', id, s'.ctls[id].(phase := Retired(prior)))
  }

  /** The end of Add. */
  function AfterStore(s: State, id: Id): State
    requires id in s.ctls
  {
    var c := s.ctls[id];
    var prev := if c.phase.Retired? then Some(c.phase.prior) else None;
    Put(s, id, c.(phase := Waiting(prev))).(byRunId := s.byRunId[c.login := id], lock := None)
  }

  function AfterStart(s: State, id: Id): State
    requires id in s.ctls
  {
    Put(s, id, StartUp(s.ctls[id]).(phase := Watching))
  }

  function AfterDelete(s: State, id: Id): State
    requires id in s.ctls
  {
    var c := s.ctls[id];
    var s' := Put(s, id, c.(phase := Over));
    if Lookup(s.byRunId, c.login) == Some(id) then s'.(byRunId := s.byRunId - {c.login}) else s'
  }

  /** The worker's closeDone. */
  function AfterFinish(s: State, id: Id): State
    requires id in s.ctls
  {
    Put(s, id, CloseDone(s.ctls[id]).(worker := Finished))
  }

  predicate IsAdvance(t: Step) {
    t.Proceed? || t.Register? || t.Respond? || t.Wake?
  }

  /** Where a login stands after a step that only it takes notice of. */
  function AfterAdvance(t: Step): Login
    requires IsAdvance(t)
  {
    match t
    case Proceed(_) => Admitted
    case Register(_, conflict) => if conflict then Refused else Registered
    case Respond(_, written) => if written then Ready else Unwritten
    case Wake(_) => Reaping
  }

  // ---- worker and handlers ----

  predicate IsWorker(t: Step) {
    t.Stop? || t.Take? || t.CloseNext? || t.Depart? || t.Finish?
  }

  function AfterWorker(s: State, t: Step, c: Control): Control
    requires IsWorker(t) && EnabledOn(s, t, c)
  {
    match t
    case Stop(_) => c.(worker := Stopped)
    case Take(_) => TakeProxies(c)
    case CloseNext(_, n) => c.(worker := Draining(c.worker.todo - {n}))
    case Depart(_) => c.(worker := Leaving)
    case Finish(_) => CloseDone(c).(worker := Finished)
  }

  predicate IsHandler(t: Step) {
    t.NewProxy? || t.CheckName? || t.RunProxy? || t.AddToManager? || t.AddToTable? || t.RollBack?
    || t.CloseProxy? || t.DropFromManager?
  }

  function AfterHandler(s: State, t: Step, c: Control): Control
    requires IsHandler(t) && EnabledOn(s, t, c)
  {
    var h := c.handler;
    match t
    case NewProxy(id, name, ports) =>
      var r := Reserve(c, s.limit, ports);
      if r.None? then c else r.value.(handler := Reserved(name, Proxy(id, s.serials, ports)))
    case CheckName(_) => c.(handler := if h.name in s.manager then Failing(h.pxy) else Checked(h.name, h.pxy))
    case RunProxy(_, ok) => c.(handler := if ok then Ran(h.name, h.pxy) else Failing(h.pxy))
    case AddToManager(_) => c.(handler := if h.name in s.manager then Failing(h.pxy) else Added(h.name, h.pxy))
    case AddToTable(_) => InsertProxy(c, h.name, h.pxy).(handler := Idle)
    case RollBack(_) => GiveBack(c, s.limit, h.pxy.ports).(handler := Idle)
    case CloseProxy(_, name) =>
      if name !in c.proxies then c
      else RemoveProxy(c, s.limit, name).(handler := Closing(name, c.proxies[name]))
    case DropFromManager(_) => c.(handler := Idle)
  }

  function AfterLocal(s: State, t: Step, c: Control): Control
    requires (IsWorker(t) || IsHandler(t)) && EnabledOn(s, t, c)
  {
    if IsWorker(t) then AfterWorker(s, t, c) else AfterHandler(s, t, c)
  }

  function ManagerAfter(s: State, t: Step, c: Control): map<Name, Proxy>
    requires (IsWorker(t) || IsHandler(t)) && EnabledOn(s, t, c)
  {
    match t
    case CloseNext(_, n) => s.manager - {n}
    case DropFromManager(_) => s.manager - {c.handler.name}
    case AddToManager(_) =>
      if c.handler.name in s.manager then s.manager else s.manager[c.handler.name := c.handler.pxy]
    case _ => s.manager
  }

  /** A worker or handler step changes its own control, and possibly the proxy manager. */
  function LocalNext(s: State, t: Step, c: Control): State
    requires (IsWorker(t) || IsHandler(t)) && EnabledOn(s, t, c)
  {
    Put(s, t.id, AfterLocal(s, t, c)).(
      manager := ManagerAfter(s, t, c),
      serials := if t.NewProxy? then s.serials + 1 else s.serials)
  }

  function LoginNext(s: State, t: Step, c: Control): State
    requires !t.Create? && !IsWorker(t) && !IsHandler(t)
    requires t.id in s.ctls && c == s.ctls[t.id] && EnabledOn(s, t, c)
  {
    if IsAdvance(t) then Put(s, t.id, c.(phase := AfterAdvance(t)))
    else match t
    case LookUp(id) => AfterLookUp(s, id)
    case Mark(id) => AfterMark(s, id)
    case Retire(id) => AfterRetire(s, id)
    case Store(id) => AfterStore(s, id)
    case Start(id) => AfterStart(s, id)
    case Delete(id) => AfterDelete(s, id)
  }

  // ---- any step ----

  function Next(s: State, t: Step): State
    requires Enabled(s, t)
  {
    if t.Create? then Put(s, t.id, NewControl(t.login))
    else if IsWorker(t) || IsHandler(t) then LocalNext(s, t, s.ctls[t.id])
    else LoginNext(s, t, s.ctls[t.id])
  }

  // ---- runs ----

  function Init(limit: int): State {
    State(map[], map[], None, map[], 0, limit)
  }

  predicate IsRun(s: State, run: seq<Step>)
    decreases |run|
  {
    run == [] || (Enabled(s, run[0]) && IsRun(Next(s, run[0]), run[1..]))
  }

  function Exec(s: State, run: seq<Step>): State
    requires IsRun(s, run)
    decreases |run|
  {
    if run == [] then s else Exec(Next(s, run[0]), run[1..])
  }

  /** A session that is up: its worker was started, nobody has replaced it, and it has not ended. */
  predicate Live(c: Control) {
    c.started && !c.replaced && c.closes == 0
  }
}

/**
 No login can get stuck: from every reachable state it can be driven to its end by
 stepping only the goroutine itself and those it is blocked on.
 */
module SessionProgress {
  import opened Options
  import opened Session
  import opened SessionHandover

  /** The next step of the worker of a started control, its dispatcher included. */
  ghost function WorkerStep(c: Control, id: Id): Step
    requires !c.worker.NoWorker? && !c.worker.Finished?
  {
    match c.worker
    case Running =>
      (match c.handler
       case Idle => Stop(id)
       case Reserved(_, _) => CheckName(id)
       case Checked(_, _) => RunProxy(id, true)
       case Ran(_, _) => AddToManager(id)
       case Added(_, _) => AddToTable(id)
       case Failing(_) => RollBack(id)
       case Closing(_, _) => DropFromManager(id))
    case Stopped => Take(id)
    case Draining(todo) => if todo == map[] then Depart(id) else var n :| n in todo; CloseNext(id, n)
    case Leaving => Finish(id)
  }

  /** The next step of a login goroutine that holds cm.mu. */
  function HolderStep(c: Control, id: Id): Step
    requires Adding(c.phase)
  {
    if c.phase.Marked? then Retire(id)
    else if c.phase.Locked? && c.phase.found.Some? then Mark(id)
    else Store(id)
  }

  predicate NeedsLock(p: Login) {
    p.Created? || p.Refused? || p.Unwritten? || p.Reaping?
  }

  /** The step of the login of `id`, or of the one goroutine it is blocked on. */
  ghost function StepFor(s: State, id: Id): Step
    requires HandoverInv(s) && id in s.ctls && !s.ctls[id].phase.Over?
  {
    var c := s.ctls[id];
    assert ControlOk(s, id);
    if NeedsLock(c.phase) && s.lock.Some? then HolderStep(s.ctls[s.lock.value], s.lock.value)
    else match c.phase
      case Created => LookUp(id)
      case Waiting(prev) =>
        if prev.Some? && s.ctls[prev.value].closes == 0
        then assert ControlOk(s, prev.value); WorkerStep(s.ctls[prev.value], prev.value)
        else Proceed(id)
      case Admitted => Register(id, false)
      case Registered => Respond(id, true)
      case Ready => Start(id)
      case Watching =>
        if c.closes > 0 then Wake(id)
        else if c.started then WorkerStep(c, id)
        else
          assert ClosePending(s, id);
          HolderStep(s.ctls[s.lock.value], s.lock.value)
      case Refused => Delete(id)
      case Unwritten => Delete(id)
      case Reaping => Delete(id)
      case Locked(_) => HolderStep(c, id)
      case Marked(_, _) => HolderStep(c, id)
      case Retired(_) => HolderStep(c, id)
  }

  // ---- how far a login is from its end ----

  function PhaseRank(p: Login): nat {
    match p
    case Created => 12
    case Locked(_) => 11
    case Marked(_, _) => 10
    case Retired(_) => 9
    case Waiting(_) => 8
    case Admitted => 7
    case Registered => 6
    case Ready => 5
    case Watching => 4
    case Refused => 3
    case Unwritten => 3
    case Reaping => 3
    case Over => 0
  }

  function HandlerRank(h: Handler): nat {
    match h
    case Idle => 0
    case Reserved(_, _) => 5
    case Checked(_, _) => 4
    case Ran(_, _) => 3
    case Added(_, _) => 2
    case Failing(_) => 1
    case Closing(_, _) => 1
  }

  function WorkerRank(c: Control): nat {
    match c.worker
    case Running => |c.proxies| + 4 + HandlerRank(c.handler)
    case Stopped => |c.proxies| + 3
    case Draining(todo) => |todo| + 2
    case Leaving => 1
    case _ => 0
  }

  /** How long the goroutine that holds up `id` still has to go. */
  function WaitRank(s: State, id: Id): nat
    requires HandoverInv(s) && id in s.ctls
  {
    var c := s.ctls[id];
    assert ControlOk(s, id);
    if NeedsLock(c.phase) && s.lock.Some? then PhaseRank(s.ctls[s.lock.value].phase)
    else if c.phase.Waiting? && c.phase.prev.Some? then WorkerRank(s.ctls[c.phase.prev.value])
    else if c.phase.Watching? && c.started then WorkerRank(c)
    else if c.phase.Watching? && s.lock.Some? then PhaseRank(s.ctls[s.lock.value].phase)
    else 0
  }

  /** Only control `id` changed, its login is where it was and its worker is nearer its end. */
  predicate Descends(s: State, s': State, id: Id)
    requires id in s.ctls
  {
    && s'.lock == s.lock && id in s'.ctls && s'.ctls == s.ctls[id := s'.ctls[id]]
    && s'.ctls[id].phase == s.ctls[id].phase && s'.ctls[id].started == s.ctls[id].started
    && WorkerRank(s'.ctls[id]) < WorkerRank(s.ctls[id])
  }

  lemma DispatcherRank(s: State, c: Control, id: Id)
    requires c.worker.Running? && !c.handler.Idle?
    ensures var t := WorkerStep(c, id);
            && t.id == id && IsHandler(t) && EnabledOn(s, t, c)
            && AfterHandler(s, t, c).phase == c.phase && AfterHandler(s, t, c).started == c.started
            && WorkerRank(AfterHandler(s, t, c)) < WorkerRank(c)
  {
  }

  lemma CleanupRank(s: State, c: Control, id: Id)
    requires !c.worker.NoWorker? && !c.worker.Finished? && (c.worker.Running? ==> c.handler.Idle?)
    ensures var t := WorkerStep(c, id);
            && t.id == id && IsWorker(t) && EnabledOn(s, t, c)
            && AfterWorker(s, t, c).phase == c.phase && AfterWorker(s, t, c).started == c.started
            && WorkerRank(AfterWorker(s, t, c)) < WorkerRank(c)
  {
    if c.worker.Draining? && c.worker.todo != map[] {
      var n := WorkerStep(c, id).name;
      assert (c.worker.todo - {n}).Keys == c.worker.todo.Keys - {n};
    }
  }

  lemma WorkerStepDescends(s: State, id: Id)
    requires id in s.ctls && !s.ctls[id].worker.NoWorker? && !s.ctls[id].worker.Finished?
    ensures var t := WorkerStep(s.ctls[id], id);
            t.id == id && Enabled(s, t) && Descends(s, Next(s, t), id)
  {
    var c := s.ctls[id];
    if c.worker.Running? && !c.handler.Idle? {
      DispatcherRank(s, c, id);
    } else {
      CleanupRank(s, c, id);
    }
  }

  /** The holder of cm.mu got nearer to letting go of it, and every other login is where it was. */
  predicate HolderDescends(s: State, s': State, h: Id)
    requires h in s.ctls
  {
    && (forall x | x in s.ctls && x != h :: x in s'.ctls && s'.ctls[x].phase == s.ctls[x].phase)
    && (s'.lock.None? || s'.lock == s.lock)
    && h in s'.ctls && PhaseRank(s'.ctls[h].phase) < PhaseRank(s.ctls[h].phase)
  }

  lemma MarkDescends(s: State, h: Id)
    requires h in s.ctls && s.ctls[h].phase.Locked? && s.ctls[h].phase.found.Some? && s.ctls[h].phase.found.value in s.ctls
    ensures HolderDescends(s, AfterMark(s, h), h)
  {
  }

  lemma RetireDescends(s: State, h: Id)
    requires h in s.ctls && s.ctls[h].phase.Marked? && s.ctls[h].phase.prior in s.ctls
    ensures HolderDescends(s, AfterRetire(s, h), h)
  {
  }

  lemma StoreDescends(s: State, h: Id)
    requires h in s.ctls && Adding(s.ctls[h].phase)
    ensures HolderDescends(s, AfterStore(s, h), h)
  {
  }

  lemma HolderStepIsEnabled(s: State, h: Id)
    requires HandoverInv(s) && s.lock == Some(h)
    ensures Enabled(s, HolderStep(s.ctls[h], h))
  {
    assert ControlOk(s, h);
    if s.ctls[h].login in s.byRunId {
      assert EntryOk(s, s.ctls[h].login);
    }
  }

  lemma HolderStepDescends(s: State)
    requires HandoverInv(s) && s.lock.Some?
    ensures var h := s.lock.value;
            var t := HolderStep(s.ctls[h], h);
            Enabled(s, t) && HolderDescends(s, Next(s, t), h)
  {
    var h := s.lock.value;
    HolderStepIsEnabled(s, h);
    if s.ctls[h].phase.Marked? {
      RetireDescends(s, h);
    } else if s.ctls[h].phase.Locked? && s.ctls[h].phase.found.Some? {
      MarkDescends(s, h);
    } else {
      StoreDescends(s, h);
    }
  }

  predicate Nearer(s: State, s': State, id: Id)
    requires HandoverInv(s) && HandoverInv(s') && id in s.ctls && id in s'.ctls
  {
    || PhaseRank(s'.ctls[id].phase) < PhaseRank(s.ctls[id].phase)
    || (s'.ctls[id].phase == s.ctls[id].phase && WaitRank(s', id) < WaitRank(s, id))
  }

  /** The goroutine `id` waits for: the holder of cm.mu. */
  predicate AwaitsLock(s: State, id: Id)
    requires id in s.ctls
  {
    var c := s.ctls[id];
    s.lock.Some? && (NeedsLock(c.phase) || (c.phase.Watching? && !c.started && c.closes == 0))
  }

  /** The control whose worker `id` waits for. */
  function Awaited(s: State, id: Id): Option<Id>
    requires id in s.ctls
  {
    var c := s.ctls[id];
    if c.phase.Waiting? && c.phase.prev.Some? && c.phase.prev.value in s.ctls
       && s.ctls[c.phase.prev.value].closes == 0 then c.phase.prev
    else if c.phase.Watching? && c.started && c.closes == 0 then Some(id)
    else None
  }

  lemma LockWaitDescends(s: State, id: Id)
    requires HandoverInv(s) && id in s.ctls && AwaitsLock(s, id)
    ensures var t := StepFor(s, id);
            Enabled(s, t) && HandoverInv(Next(s, t)) && id in Next(s, t).ctls && Nearer(s, Next(s, t), id)
  {
    assert ControlOk(s, id) && ControlOk(s, s.lock.value);
    HolderStepDescends(s);
    StepKeeps(s, StepFor(s, id));
  }

  lemma WorkerWaitDescends(s: State, id: Id)
    requires HandoverInv(s) && id in s.ctls && Awaited(s, id).Some?
    ensures var t := StepFor(s, id);
            Enabled(s, t) && HandoverInv(Next(s, t)) && id in Next(s, t).ctls && Nearer(s, Next(s, t), id)
  {
    var w := Awaited(s, id).value;
    assert ControlOk(s, id) && ControlOk(s, w);
    WorkerStepDescends(s, w);
    StepKeeps(s, StepFor(s, id));
  }

  lemma AdvanceStepRank(s: State, t: Step)
    requires Enabled(s, t) && IsAdvance(t)
    ensures t.id in Next(s, t).ctls && PhaseRank(Next(s, t).ctls[t.id].phase) < PhaseRank(s.ctls[t.id].phase)
  {
  }

  lemma BoundaryStepRank(s: State, t: Step)
    requires Enabled(s, t) && (t.LookUp? || t.Start? || t.Delete?)
    ensures t.id in Next(s, t).ctls && PhaseRank(Next(s, t).ctls[t.id].phase) < PhaseRank(s.ctls[t.id].phase)
  {
  }

  lemma OwnStepDescends(s: State, id: Id)
    requires HandoverInv(s) && id in s.ctls && !s.ctls[id].phase.Over?
    requires !AwaitsLock(s, id) && Awaited(s, id).None?
    ensures var t := StepFor(s, id);
            Enabled(s, t) && HandoverInv(Next(s, t)) && id in Next(s, t).ctls && Nearer(s, Next(s, t), id)
  {
    assert ControlOk(s, id);
    if Adding(s.ctls[id].phase) {
      HolderStepDescends(s);
    } else if IsAdvance(StepFor(s, id)) {
      AdvanceStepRank(s, StepFor(s, id));
    } else {
      BoundaryStepRank(s, StepFor(s, id));
    }
    StepKeeps(s, StepFor(s, id));
  }

  /** Every login can be brought to its end by at most finitely many steps of those it depends on. */
  lemma {:induction false} LoginCanComplete(s: State, id: Id) returns (run: seq<Step>)
    requires HandoverInv(s) && id in s.ctls
    ensures IsRun(s, run) && id in Exec(s, run).ctls && Exec(s, run).ctls[id].phase.Over?
    decreases PhaseRank(s.ctls[id].phase), WaitRank(s, id)
  {
    if s.ctls[id].phase.Over? {
      run := [];
    } else {
      if AwaitsLock(s, id) {
        LockWaitDescends(s, id);
      } else if Awaited(s, id).Some? {
        WorkerWaitDescends(s, id);
      } else {
        OwnStepDescends(s, id);
      }
      var t := StepFor(s, id);
      var rest := LoginCanComplete(Next(s, t), id);
      run := [t] + rest;
      assert run[1..] == rest;
    }
  }

  lemma NoLoginIsStuck(limit: int, run: seq<Step>, id: Id) returns (more: seq<Step>)
    requires IsRun(Init(limit), run) && id in Exec(Init(limit), run).ctls
    ensures var s := Exec(Init(limit), run);
            IsRun(s, more) && id in Exec(s, more).ctls && Exec(s, more).ctls[id].phase.Over?
  {
    RunKeeps(Init(limit), run);
    more := LoginCanComplete(Exec(Init(limit), run), id);
  }
}

/** What every run of the handover keeps: who may be live, and who waits for whom. */
module SessionHandover {
  import opened Options
  import opened Session

  /** Inside ControlManager.Add, cm.mu held. */
  predicate Adding(p: Login) {
    p.Locked? || p.Marked? || p.Retired?
  }

  predicate BeforeStore(p: Login) {
    p.Created? || Adding(p)
  }

  /** Add has stored the control and its own Del has not run. */
  predicate Stored(p: Login) {
    !BeforeStore(p) && !p.Over?
  }

  /** The goroutine holding cm.mu is between marking `id` replaced and overwriting its entry. */
  predicate BeingReplaced(s: State, id: Id) {
    s.lock.Some? && s.lock.value in s.ctls &&
    var p := s.ctls[s.lock.value].phase;
    (p.Marked? || p.Retired?) && p.prior == id
  }

  /** The goroutine holding cm.mu has still to close the doneCh of the never started `id`. */
  predicate ClosePending(s: State, id: Id) {
    s.lock.Some? && s.lock.value in s.ctls &&
    var p := s.ctls[s.lock.value].phase;
    p.Marked? && p.prior == id && !p.ran
  }

  /** An entry of the map is a stored control of that run id, and not a replaced one for longer than Add takes. */
  predicate EntryOk(s: State, r: RunId)
    requires r in s.byRunId
  {
    var id := s.byRunId[r];
    id in s.ctls && s.ctls[id].login == r && Stored(s.ctls[id].phase)
    && (s.ctls[id].replaced ==> BeingReplaced(s, id))
  }

  predicate LockOk(s: State) {
    s.lock.Some? ==> s.lock.value in s.ctls && Adding(s.ctls[s.lock.value].phase)
  }

  /** A replaced control that is released, or has a worker that will release it. */
  predicate Releasable(s: State, id: Id, login: RunId) {
    id in s.ctls && s.ctls[id].login == login && s.ctls[id].replaced
    && (s.ctls[id].started || s.ctls[id].closes > 0)
  }

  predicate PhaseOk(s: State, id: Id)
    requires id in s.ctls
  {
    var c := s.ctls[id];
    && (Adding(c.phase) ==> s.lock == Some(id))
    && (Stored(c.phase) && !c.replaced ==> Lookup(s.byRunId, c.login) == Some(id))
    && (BeforeStore(c.phase) ==> !c.replaced)
    && (c.started ==> c.phase.Watching? || c.phase.Reaping? || c.phase.Over?)
    && (c.phase.Watching? && !c.started ==> c.replaced)
    && (c.started && (c.phase.Reaping? || c.phase.Over?) ==> c.closes > 0)
    && match c.phase
       case Locked(found) => found == Lookup(s.byRunId, c.login)
       case Marked(prior, ran) =>
         && Lookup(s.byRunId, c.login) == Some(prior) && prior in s.ctls
         && s.ctls[prior].replaced && ran == s.ctls[prior].started
       case Retired(prior) => Lookup(s.byRunId, c.login) == Some(prior) && Releasable(s, prior, c.login)
       case Waiting(prev) => prev.Some? ==> prev.value != id && Releasable(s, prev.value, c.login)
       case _ => true
  }

  predicate CountsOk(s: State, id: Id)
    requires id in s.ctls
  {
    var c := s.ctls[id];
    && c.replacements == (if c.replaced then 1 else 0)
    && c.runID == (if c.replaced then "" else c.login)
    && (c.started <==> !c.worker.NoWorker?)
    && c.closes == (if c.worker.Finished? then 1
                    else if c.replaced && !c.started && !ClosePending(s, id) then 1 else 0)
  }

  predicate ControlOk(s: State, id: Id)
    requires id in s.ctls
  {
    PhaseOk(s, id) && CountsOk(s, id)
  }

  // The triggers keep the solver from chasing one control to the next through the phases.
  predicate HandoverInv(s: State) {
    && LockOk(s)
    && (forall r {:trigger EntryOk(s, r)} | r in s.byRunId :: EntryOk(s, r))
    && (forall id {:trigger ControlOk(s, id)} | id in s.ctls :: ControlOk(s, id))
  }

  lemma CreateKeeps(s: State, id: Id, login: RunId)
    requires HandoverInv(s) && id !in s.ctls
    ensures HandoverInv(Put(s, id, NewControl(login)))
  {
    var s' := Put(s, id, NewControl(login));
    forall r | r in s'.byRunId ensures EntryOk(s', r) {
      assert r in s.byRunId ==> EntryOk(s, r);
    }
    forall x | x in s'.ctls ensures ControlOk(s', x) {
      assert x in s.ctls ==> ControlOk(s, x);
    }
  }

  lemma LookUpKeeps(s: State, id: Id)
    requires HandoverInv(s) && id in s.ctls && s.ctls[id].phase.Created? && s.lock.None?
    ensures HandoverInv(AfterLookUp(s, id))
  {
    var s' := AfterLookUp(s, id);
    forall r | r in s'.byRunId ensures EntryOk(s', r) {
      assert r in s.byRunId ==> EntryOk(s, r);
    }
    forall x | x in s'.ctls ensures ControlOk(s', x) {
      assert x in s.ctls ==> ControlOk(s, x);
    }
  }

  lemma MarkKeeps(s: State, id: Id)
    requires HandoverInv(s) && id in s.ctls && s.ctls[id].phase.Locked? && s.ctls[id].phase.found.Some? && s.ctls[id].phase.found.value in s.ctls
    ensures HandoverInv(AfterMark(s, id))
  {
    var s' := AfterMark(s, id);
    var login := s.ctls[id].login;
    assert ControlOk(s, id);
    if login in s.byRunId {
      assert EntryOk(s, login) && ControlOk(s, s.byRunId[login]);
    }
    forall r | r in s'.byRunId ensures EntryOk(s', r) {
      assert r in s.byRunId ==> EntryOk(s, r);
    }
    forall x | x in s'.ctls ensures ControlOk(s', x) {
      assert x in s.ctls ==> ControlOk(s, x);
    }
  }

  lemma RetireKeeps(s: State, id: Id)
    requires HandoverInv(s) && id in s.ctls && s.ctls[id].phase.Marked? && s.ctls[id].phase.prior in s.ctls
    ensures HandoverInv(AfterRetire(s, id))
  {
    var s' := AfterRetire(s, id);
    var login := s.ctls[id].login;
    assert ControlOk(s, id);
    if login in s.byRunId {
      assert EntryOk(s, login) && ControlOk(s, s.byRunId[login]);
    }
    forall r | r in s'.byRunId ensures EntryOk(s', r) {
      assert r in s.byRunId ==> EntryOk(s, r);
    }
    forall x | x in s'.ctls ensures ControlOk(s', x) {
      assert x in s.ctls ==> ControlOk(s, x);
    }
  }

  lemma StoreKeeps(s: State, id: Id)
    requires HandoverInv(s) && id in s.ctls && (s.ctls[id].phase == Locked(None) || s.ctls[id].phase.Retired?)
    ensures HandoverInv(AfterStore(s, id))
  {
    var s' := AfterStore(s, id);
    var login := s.ctls[id].login;
    assert ControlOk(s, id);
    if login in s.byRunId {
      assert EntryOk(s, login) && ControlOk(s, s.byRunId[login]);
    }
    forall r | r in s'.byRunId ensures EntryOk(s', r) {
      assert r in s.byRunId ==> EntryOk(s, r);
    }
    forall x | x in s'.ctls ensures ControlOk(s', x) {
      assert x in s.ctls ==> ControlOk(s, x);
    }
  }

  lemma StartKeeps(s: State, id: Id)
    requires HandoverInv(s) && id in s.ctls && s.ctls[id].phase.Ready?
    ensures HandoverInv(AfterStart(s, id))
  {
    var s' := AfterStart(s, id);
    forall r | r in s'.byRunId ensures EntryOk(s', r) {
      assert r in s.byRunId ==> EntryOk(s, r);
    }
    forall x | x in s'.ctls ensures ControlOk(s', x) {
      assert x in s.ctls ==> ControlOk(s, x);
    }
  }

  lemma DeleteKeeps(s: State, id: Id)
    requires HandoverInv(s) && id in s.ctls && (s.ctls[id].phase.Refused? || s.ctls[id].phase.Unwritten? || s.ctls[id].phase.Reaping?) && s.lock.None?
    ensures HandoverInv(AfterDelete(s, id))
  {
    var s' := AfterDelete(s, id);
    forall r | r in s'.byRunId ensures EntryOk(s', r) {
      assert r in s.byRunId ==> EntryOk(s, r);
    }
    forall x | x in s'.ctls ensures ControlOk(s', x) {
      assert x in s.ctls ==> ControlOk(s, x);
    }
  }

  lemma FinishKeeps(s: State, id: Id)
    requires HandoverInv(s) && id in s.ctls && s.ctls[id].worker.Leaving?
    ensures HandoverInv(AfterFinish(s, id))
  {
    var s' := AfterFinish(s, id);
    forall r | r in s'.byRunId ensures EntryOk(s', r) {
      assert r in s.byRunId ==> EntryOk(s, r);
    }
    forall x | x in s'.ctls ensures ControlOk(s', x) {
      assert x in s.ctls ==> ControlOk(s, x);
    }
  }

  /** A later phase of the same login that changes nothing another goroutine depends on. */
  predicate Advanced(c: Control, p: Login) {
    && Stored(c.phase) && Stored(p) && !p.Waiting? && !p.Watching?
    && (c.started ==> p.Reaping?)
    && (p.Reaping? ==> c.closes > 0)
  }

  /** All that the handover depends on is as it was, up to a plain advance of the login. */
  predicate SameHandover(c: Control, d: Control) {
    && c.login == d.login && c.runID == d.runID && c.started == d.started && c.replaced == d.replaced
    && c.replacements == d.replacements && c.closes == d.closes && (c.phase == d.phase || Advanced(c, d.phase))
    && c.worker.NoWorker? == d.worker.NoWorker? && c.worker.Finished? == d.worker.Finished?
  }

  predicate Framed(s: State, s': State, id: Id) {
    && id in s.ctls && id in s'.ctls && s'.ctls == s.ctls[id := s'.ctls[id]]
    && s'.byRunId == s.byRunId && s'.lock == s.lock
    && SameHandover(s.ctls[id], s'.ctls[id])
  }

  lemma FramedControl(s: State, s': State, id: Id, x: Id)
    requires HandoverInv(s) && Framed(s, s', id) && x in s.ctls
    ensures ControlOk(s', x)
  {
    assert ControlOk(s, id) && ControlOk(s, x);
  }

  lemma FrameKeeps(s: State, s': State, id: Id)
    requires HandoverInv(s) && Framed(s, s', id)
    ensures HandoverInv(s')
  {
    assert ControlOk(s, id);
    forall r | r in s'.byRunId ensures EntryOk(s', r) {
      assert EntryOk(s, r);
    }
    forall x | x in s'.ctls ensures ControlOk(s', x) {
      FramedControl(s, s', id, x);
    }
  }

  lemma AdvanceIsPlain(s: State, t: Step, c: Control)
    requires IsAdvance(t) && EnabledOn(s, t, c)
    requires c.started ==> c.phase.Watching? || c.phase.Reaping? || c.phase.Over?
    ensures Advanced(c, AfterAdvance(t))
  {
  }

  lemma AdvanceIsFramed(s: State, t: Step)
    requires HandoverInv(s) && Enabled(s, t) && IsAdvance(t)
    ensures Framed(s, Next(s, t), t.id)
  {
    var c := s.ctls[t.id];
    assert ControlOk(s, t.id);
    AdvanceIsPlain(s, t, c);
    assert Next(s, t) == Put(s, t.id, c.(phase := AfterAdvance(t)));
  }

  lemma WorkerIsQuiet(s: State, t: Step, c: Control)
    requires IsWorker(t) && !t.Finish? && EnabledOn(s, t, c)
    ensures SameHandover(c, AfterWorker(s, t, c))
  {
  }

  lemma HandlerIsQuiet(s: State, t: Step, c: Control)
    requires IsHandler(t) && EnabledOn(s, t, c)
    ensures SameHandover(c, AfterHandler(s, t, c))
  {
  }

  lemma LocalIsFramed(s: State, t: Step)
    requires Enabled(s, t) && (IsHandler(t) || (IsWorker(t) && !t.Finish?))
    ensures Framed(s, Next(s, t), t.id)
  {
    var c := s.ctls[t.id];
    assert SameHandover(c, AfterLocal(s, t, c)) by {
      if IsWorker(t) {
        WorkerIsQuiet(s, t, c);
      } else {
        HandlerIsQuiet(s, t, c);
      }
    }
  }

  lemma StepKeeps(s: State, t: Step)
    requires HandoverInv(s) && Enabled(s, t)
    ensures HandoverInv(Next(s, t))
  {
    if IsAdvance(t) {
      AdvanceIsFramed(s, t);
      FrameKeeps(s, Next(s, t), t.id);
    } else if IsHandler(t) || (IsWorker(t) && !t.Finish?) {
      LocalIsFramed(s, t);
      FrameKeeps(s, Next(s, t), t.id);
    } else if t.Finish? {
      assert Next(s, t) == AfterFinish(s, t.id);
      FinishKeeps(s, t.id);
    } else if t.Create? {
      CreateKeeps(s, t.id, t.login);
    } else if t.LookUp? {
      LookUpKeeps(s, t.id);
    } else if t.Mark? {
      MarkKeeps(s, t.id);
    } else if t.Retire? {
      RetireKeeps(s, t.id);
    } else if t.Store? {
      StoreKeeps(s, t.id);
    } else if t.Start? {
      StartKeeps(s, t.id);
    } else {
      DeleteKeeps(s, t.id);
    }
  }

  lemma {:induction false} RunKeeps(s: State, run: seq<Step>)
    requires HandoverInv(s) && IsRun(s, run)
    ensures HandoverInv(Exec(s, run))
    decreases |run|
  {
    if run != [] {
      StepKeeps(s, run[0]);
      RunKeeps(Next(s, run[0]), run[1..]);
    }
  }

  // ---- the theorems ----

  /** One live session per run id at any moment, and it is the one the map holds. */
  lemma AtMostOneLiveSession(limit: int, run: seq<Step>, a: Id, b: Id)
    requires IsRun(Init(limit), run)
    requires var s := Exec(Init(limit), run);
             a in s.ctls && b in s.ctls && Live(s.ctls[a]) && Live(s.ctls[b]) && s.ctls[a].login == s.ctls[b].login
    ensures var s := Exec(Init(limit), run);
            a == b && Lookup(s.byRunId, s.ctls[a].login) == Some(a)
  {
    RunKeeps(Init(limit), run);
    var s := Exec(Init(limit), run);
    assert ControlOk(s, a) && ControlOk(s, b);
  }

  /** doneCh is never closed twice, whatever doneOnce does, and no control is handed over twice. */
  lemma ReplacedAndClosedAtMostOnce(limit: int, run: seq<Step>, id: Id)
    requires IsRun(Init(limit), run) && id in Exec(Init(limit), run).ctls
    ensures var c := Exec(Init(limit), run).ctls[id];
            c.replacements <= 1 && c.closes <= 1 && (c.runID == "" <==> c.replaced || c.login == "")
  {
    RunKeeps(Init(limit), run);
    assert ControlOk(Exec(Init(limit), run), id);
  }

  /** A worker was started for the control and has still to close doneCh. */
  predicate WillClose(c: Control) {
    c.started && !c.worker.NoWorker? && !c.worker.Finished? && c.closes == 0
  }

  /** Nobody waits in WaitClosed for a control that nothing will ever release. */
  lemma WaitsAreReleased(limit: int, run: seq<Step>, id: Id)
    requires IsRun(Init(limit), run) && id in Exec(Init(limit), run).ctls
    ensures var s := Exec(Init(limit), run);
            var p := s.ctls[id].phase;
            p.Waiting? && p.prev.Some? ==>
              && p.prev.value in s.ctls && p.prev.value != id
              && s.ctls[p.prev.value].replaced && s.ctls[p.prev.value].login == s.ctls[id].login
              && (s.ctls[p.prev.value].closes == 1 || WillClose(s.ctls[p.prev.value]))
  {
    RunKeeps(Init(limit), run);
    var s := Exec(Init(limit), run);
    assert ControlOk(s, id);
    var p := s.ctls[id].phase;
    if p.Waiting? && p.prev.Some? {
      assert ControlOk(s, p.prev.value);
    }
  }

  lemma LocalLeavesTheMap(s: State, t: Step)
    requires Enabled(s, t) && (IsWorker(t) || IsHandler(t))
    ensures Next(s, t).byRunId == s.byRunId
  {
  }

  lemma LoginLeavesTheMap(s: State, t: Step)
    requires Enabled(s, t) && !IsWorker(t) && !IsHandler(t) && !t.Store? && !t.Delete?
    ensures Next(s, t).byRunId == s.byRunId
  {
  }

  lemma EntryLeaves(s: State, t: Step, r: RunId)
    requires HandoverInv(s) && Enabled(s, t)
    ensures var s' := Next(s, t);
            r in s.byRunId && Lookup(s'.byRunId, r) != Lookup(s.byRunId, r) ==>
              var id := s.byRunId[r];
              && t.id in s.ctls && id in s.ctls && s.ctls[t.id].login == r
              && (if r in s'.byRunId then t == Store(s'.byRunId[r]) && s.ctls[id].replaced
                  else t == Delete(id) && !Live(s.ctls[id]))
  {
    if IsWorker(t) || IsHandler(t) {
      LocalLeavesTheMap(s, t);
    } else if !t.Store? && !t.Delete? {
      LoginLeavesTheMap(s, t);
    } else if r in s.byRunId {
      assert EntryOk(s, r) && ControlOk(s, t.id) && ControlOk(s, s.byRunId[r]);
    }
  }

  /** Only a control's own Del takes its entry out; only a newer login of the same run id overwrites it. */
  lemma OnlyTheOwnerLeavesTheMap(limit: int, run: seq<Step>, t: Step, r: RunId)
    requires IsRun(Init(limit), run) && Enabled(Exec(Init(limit), run), t)
    ensures var s := Exec(Init(limit), run);
            var s' := Next(s, t);
            r in s.byRunId && Lookup(s'.byRunId, r) != Lookup(s.byRunId, r) ==>
              var id := s.byRunId[r];
              && t.id in s.ctls && id in s.ctls && s.ctls[t.id].login == r
              && (if r in s'.byRunId then t == Store(s'.byRunId[r]) && s.ctls[id].replaced
                  else t == Delete(id) && !Live(s.ctls[id]))
  {
    RunKeeps(Init(limit), run);
    EntryLeaves(Exec(Init(limit), run), t, r);
  }
}

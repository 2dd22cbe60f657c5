/**
 The control, the control manager and the proxy manager as the objects they are.
 Each method is what one goroutine does; its contract is stated with the functions
 that the steps of the state machine in `Session` are made of.
 */
module SessionObjects {
  import opened Options
  import opened Session
  import opened SessionProxies

  class ProxyManager {
    var pxys: map<Name, Proxy>

    constructor ()
      ensures pxys == map[]
    {
      pxys := map[];
    }

    method Add(name: Name, pxy: Proxy) returns (ok: bool)
      modifies this
      ensures ok <==> name !in old(pxys)
      ensures pxys == if ok then old(pxys)[name := pxy] else old(pxys)
    {
      if name in pxys {
        return false;
      }
      pxys := pxys[name := pxy];
      return true;
    }

    method Exist(name: Name) returns (found: bool)
      ensures found <==> name in pxys
    {
      found := name in pxys;
    }

    method Del(name: Name)
      modifies this
      ensures pxys == old(pxys) - {name}
    {
      pxys := pxys - {name};
    }
  }

  datatype RegisterError = NoError | TooManyPorts | NameExists | RunFailed | NameInUse

  class Control {
    const id: Id
    const login: RunId
    const limit: int            // ServerCfg.MaxPortsPerClient
    const manager: ProxyManager

    var runID: RunId
    var started: bool
    var replaced: bool
    var doneOnce: bool          // the sync.Once has fired
    var doneClosed: bool        // doneCh is closed
    var proxies: map<Name, Proxy>
    var portsUsedNum: int

    ghost var replacements: nat // calls of Replaced
    ghost var closes: nat       // calls of closeDone
    ghost var worker: Worker

    ghost predicate Valid()
      reads this
    {
      doneOnce == doneClosed == (closes > 0)
    }

    /** This control as the state machine sees it between two handler calls. */
    ghost function View(): Session.Control
      reads this
    {
      Session.Control(login, runID, started, replaced, replacements, closes, Watching, worker, Idle, proxies, portsUsedNum)
    }

    constructor (id: Id, login: RunId, limit: int, manager: ProxyManager)
      ensures Valid() && this.id == id && this.limit == limit && this.manager == manager
      ensures View() == NewControl(login).(phase := Watching)
    {
      this.id, this.login, this.limit, this.manager := id, login, limit, manager;
      runID := login;
      started, replaced, doneOnce, doneClosed := false, false, false, false;
      proxies, portsUsedNum := map[], 0;
      replacements, closes, worker := 0, 0, NoWorker;
    }

    /** Brings the worker up, unless the control was handed over while its login was in flight. */
    method Start() returns (spawned: bool)
      requires Valid()
      modifies this
      ensures Valid() && View() == StartUp(old(View())) && spawned == !old(replaced)
    {
      if replaced {
        return false;
      }
      started := true;
      worker := Running;
      return true;
    }

    method CloseDone()
      requires Valid()
      modifies this
      ensures Valid() && doneClosed && View() == Session.CloseDone(old(View()))
    {
      if !doneOnce {
        doneOnce := true;
        doneClosed := true;
      }
      closes := closes + 1;
    }

    /** Hands the run id over. Nothing would ever close doneCh of a control that has no worker, so this does. */
    method Replaced()
      requires Valid()
      modifies this
      ensures Valid() && (doneClosed <==> old(doneClosed) || !old(started))
      ensures View() == if old(started) then MarkReplaced(old(View())) else Session.CloseDone(MarkReplaced(old(View())))
    {
      runID := "";
      replaced := true;
      replacements := replacements + 1;
      var ran := started;
      if !ran {
        CloseDone();
      }
    }

    /** What holds of a live control between two handler calls. */
    ghost predicate Settled()
      reads this, manager
    {
      Valid() && worker.Running? && TableOk(manager.pxys, id, View()) && PortsOk(limit, View())
    }

    /** What the other controls may do to the manager: anything but to this control's names. */
    ghost predicate Rely(meanwhile: map<Name, Proxy>)
      reads this, manager
    {
      forall n | n in manager.pxys && manager.pxys[n].owner == id :: Lookup(meanwhile, n) == Some(manager.pxys[n])
    }

    /**
     RegisterProxy, given whether pxy.Run succeeds and what the manager holds by the
     time it has. Every failing exit gives the counted ports back.
     */
    method RegisterProxy(name: Name, serial: nat, ports: nat, runs: bool, meanwhile: map<Name, Proxy>)
      returns (err: RegisterError)
      requires Settled() && Rely(meanwhile)
      modifies this`portsUsedNum, this`proxies, manager
      ensures Settled()
      ensures err.TooManyPorts? <==> Reserve(old(View()), limit, ports).None?
      ensures err.NameExists? <==> !err.TooManyPorts? && name in old(manager.pxys)
      ensures err.RunFailed? <==> !err.TooManyPorts? && !err.NameExists? && !runs
      ensures err.NameInUse? <==> !err.TooManyPorts? && !err.NameExists? && runs && name in meanwhile
      ensures err.NoError? ==> var pxy := Proxy(id, serial, ports);
                               && manager.pxys == meanwhile[name := pxy]
                               && View() == InsertProxy(Reserve(old(View()), limit, ports).value, name, pxy)
      ensures !err.NoError? ==> View() == old(View())
                                && manager.pxys == if err.NameInUse? then meanwhile else old(manager.pxys)
    {
      var pxy := Proxy(id, serial, ports);
      if limit > 0 {
        if portsUsedNum + ports > limit {
          return TooManyPorts;
        }
        portsUsedNum := portsUsedNum + ports;
      }
      var found := manager.Exist(name);
      if found {
        GiveBackPorts(ports);
        return NameExists;
      }
      if !runs {
        GiveBackPorts(ports);
        return RunFailed;
      }
      manager.pxys := meanwhile;
      var ok := manager.Add(name, pxy);
      if !ok {
        GiveBackPorts(ports);
        return NameInUse;
      }
      PortSumInsert(proxies, name, pxy);
      proxies := proxies[name := pxy];
      err := NoError;
    }

    method GiveBackPorts(ports: nat)
      modifies this`portsUsedNum
      ensures View() == GiveBack(old(View()), limit, ports)
    {
      if limit > 0 {
        portsUsedNum := portsUsedNum - ports;
      }
    }

    /** CloseProxy: a name this control does not list is ignored, whoever else has it. */
    method CloseProxy(name: Name)
      requires Settled()
      modifies this`portsUsedNum, this`proxies, manager
      ensures Settled()
      ensures name !in old(proxies) ==> View() == old(View()) && manager.pxys == old(manager.pxys)
      ensures name in old(proxies) ==>
                && View() == RemoveProxy(old(View()), limit, name)
                && manager.pxys == old(manager.pxys) - {name}
    {
      if name !in proxies {
        return;
      }
      PortSumRemove(proxies, name);
      GiveBackPorts(proxies[name].ports);
      proxies := proxies - {name};
      manager.Del(name);
    }

    /** The loop of worker over what the table held; the names go in no particular order. */
    method CloseAll(todo: map<Name, Proxy>)
      modifies manager
      ensures manager.pxys == old(manager.pxys) - todo.Keys
    {
      var left := todo;
      while left != map[]
        invariant left.Keys <= todo.Keys && manager.pxys == old(manager.pxys) - (todo.Keys - left.Keys)
        decreases left.Keys
      {
        var n :| n in left;
        manager.Del(n);
        left := left - {n};
      }
    }

    /** The end of worker, once the dispatcher is done: everything registered goes, then doneCh closes. */
    method CleanUp()
      requires Settled()
      modifies this, manager
      ensures Valid() && doneClosed && proxies == map[]
      ensures View() == Session.CloseDone(TakeProxies(old(View()))).(worker := Finished)
      ensures manager.pxys == old(manager.pxys) - old(proxies).Keys
    {
      var todo := proxies;
      proxies := map[];
      CloseAll(todo);
      CloseDone();
      worker := Finished;
    }
  }

  class ControlManager {
    var ctlsByRunID: map<RunId, Control>

    constructor ()
      ensures ctlsByRunID == map[]
    {
      ctlsByRunID := map[];
    }

    ghost predicate Valid()
      reads this, ctlsByRunID.Values
    {
      forall r | r in ctlsByRunID :: ctlsByRunID[r].Valid()
    }

    /** Stores `ctl`; whoever held the run id is replaced, and released or about to be. */
    method Add(runID: RunId, ctl: Control) returns (prev: Control?)
      requires Valid() && ctl.Valid()
      modifies this, if runID in ctlsByRunID then {ctlsByRunID[runID]} else {}
      ensures Valid() && ctlsByRunID == old(ctlsByRunID)[runID := ctl] && (prev != ctl ==> unchanged(ctl))
      ensures if runID in old(ctlsByRunID) then prev == old(ctlsByRunID)[runID] else prev == null
      ensures prev != null ==> prev.replaced && prev.runID == "" && (prev.started || prev.doneClosed)
    {
      prev := null;
      if runID in ctlsByRunID {
        prev := ctlsByRunID[runID];
        prev.Replaced();
      }
      ctlsByRunID := ctlsByRunID[runID := ctl];
    }

    /** Deletes the entry only if it is still this control. */
    method Del(runID: RunId, ctl: Control)
      modifies this
      ensures ctlsByRunID == if runID in old(ctlsByRunID) && old(ctlsByRunID)[runID] == ctl
                             then old(ctlsByRunID) - {runID} else old(ctlsByRunID)
    {
      if runID in ctlsByRunID && ctlsByRunID[runID] == ctl {
        ctlsByRunID := ctlsByRunID - {runID};
      }
    }
  }
}

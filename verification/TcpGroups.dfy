/**
 Load-balancing groups over one TCP port, as a concurrent protocol. Listen calls
 fetch a group from the registry and lock it, and may find that it was removed in the
 meantime; listeners close and the last one takes the group down. Steps of any
 number of calls and closes interleave. A group's mutex is held over several steps.
 */
module TcpGroups {
  import opened Options

  type Name = string
  type Gid = nat  // a group object
  type Lid = nat  // a listener
  type Tid = nat  // a call of TCPGroupCtl.Listen

  /** The parameters members of a group must agree on. */
  datatype Params = Params(key: string, addr: string, port: int)

  datatype Holder = ByCall(t: Tid) | ByClose(l: Lid)

  datatype Group = Group(
    name: Name,              // the key it is created under
    holder: Option<Holder>,  // who has tg.mu
    lns: set<Lid>,           // the members; their order plays no part
    params: Params,          // as of the first listener
    realPort: int,
    opens: nat,              // calls of initBase
    closes: nat)             // times acceptCh was closed

  datatype Outcome = Listening(l: Lid) | NoPort | BindFailed | ParamsInvalid | DifferentPort | AuthFailed

  datatype CallPhase =
    | Start
    | Fetched(g: Gid)                // getOrCreate has returned
    | Locked(g: Gid)                 // tg.mu held, isCurrent not yet asked
    | Current(g: Gid)                // it is the registry's group
    | Bound(g: Gid, port: int)       // the port manager has granted a port
    | Done(r: Outcome)

  datatype Call = Call(name: Name, params: Params, phase: CallPhase)

  /** What a further member of a group is told; the group's name is the one it was fetched under, so it agrees. */
  function Admission(group: Params, mine: Params, l: Lid): Outcome {
    if group.addr != mine.addr then ParamsInvalid
    else if group.port != mine.port then DifferentPort
    else if group.key != mine.key then AuthFailed
    else Listening(l)
  }

  datatype ListenerPhase =
    | Open
    | Closing                        // once has fired, waiting for tg.mu
    | Emptied                        // it was the last; acceptCh and the real listener are closed
    | Released                       // the port is given back
    | Closed

  datatype Listener = Listener(g: Gid, phase: ListenerPhase)

  datatype State = State(
    registry: map<Name, Gid>,
    groups: map<Gid, Group>,
    calls: map<Tid, Call>,
    listeners: map<Lid, Listener>,
    used: map<int, Gid>)             // usedPorts of the port manager, and for which group

  datatype Step =
    | Listen(t: Tid, name: Name, params: Params)
    | Fetch(t: Tid, made: Gid)
    | Lock(t: Tid)
    | AskCurrent(t: Tid)
    | AcquirePort(t: Tid, port: Option<int>)
    | BindPort(t: Tid, ok: bool, l: Lid)
    | Join(t: Tid, l: Lid)
    | CloseListener(l: Lid)
    | Unlist(l: Lid)
    | ReleasePort(l: Lid)
    | RemoveGroup(l: Lid)

  predicate Enabled(s: State, a: Step) {
    match a
    case Listen(t, _, _) => t !in s.calls
    case Fetch(t, made) => t in s.calls && s.calls[t].phase.Start? && made !in s.groups
    case Lock(t) =>
      t in s.calls && s.calls[t].phase.Fetched? && s.calls[t].phase.g in s.groups
      && s.groups[s.calls[t].phase.g].holder.None?
    case AskCurrent(t) => t in s.calls && s.calls[t].phase.Locked? && s.calls[t].phase.g in s.groups
    case AcquirePort(t, port) =>
      && t in s.calls && s.calls[t].phase.Current? && s.calls[t].phase.g in s.groups
      && s.groups[s.calls[t].phase.g].lns == {} && (port.Some? ==> port.value !in s.used)
    case BindPort(t, _, l) =>
      t in s.calls && s.calls[t].phase.Bound? && s.calls[t].phase.g in s.groups && l !in s.listeners
    case Join(t, l) =>
      && t in s.calls && s.calls[t].phase.Current? && s.calls[t].phase.g in s.groups
      && s.groups[s.calls[t].phase.g].lns != {} && l !in s.listeners
    case CloseListener(l) => l in s.listeners
    case Unlist(l) =>
      l in s.listeners && s.listeners[l].phase.Closing? && s.listeners[l].g in s.groups
      && s.groups[s.listeners[l].g].holder.None?
    case ReleasePort(l) => l in s.listeners && s.listeners[l].phase.Emptied? && s.listeners[l].g in s.groups
    case RemoveGroup(l) => l in s.listeners && s.listeners[l].phase.Released? && s.listeners[l].g in s.groups
  }

  function SetCall(s: State, t: Tid, p: CallPhase): State
    requires t in s.calls
  {
    s.(calls := s.calls[t := s.calls[t].(phase := p)])
  }

  function SetGroup(s: State, g: Gid, x: Group): State {
    s.(groups := s.groups[g := x])
  }

  function SetListener(s: State, l: Lid, p: ListenerPhase): State
    requires l in s.listeners
  {
    s.(listeners := s.listeners[l := s.listeners[l].(phase := p)])
  }

  function Next(s: State, a: Step): State
    requires Enabled(s, a)
  {
    match a
    case Listen(t, name, params) => s.(calls := s.calls[t := Call(name, params, Start)])
    case Fetch(t, made) =>
      var name := s.calls[t].name;
      if name in s.registry then SetCall(s, t, Fetched(s.registry[name]))
      else
        SetCall(SetGroup(s, made, Group(name, None, {}, Params("", "", 0), 0, 0, 0)), t, Fetched(made)).(
          registry := s.registry[name := made])
    case Lock(t) =>
      var g := s.calls[t].phase.g;
      SetCall(SetGroup(s, g, s.groups[g].(holder := Some(ByCall(t)))), t, Locked(g))
    case AskCurrent(t) =>
      var g := s.calls[t].phase.g;
      if Lookup(s.registry, s.calls[t].name) == Some(g) then SetCall(s, t, Current(g))
      else SetCall(SetGroup(s, g, s.groups[g].(holder := None)), t, Start)
    case AcquirePort(t, port) =>
      var g := s.calls[t].phase.g;
      if port.Some? then SetCall(s, t, Bound(g, port.value)).(used := s.used[port.value := g])
      else SetCall(SetGroup(s, g, s.groups[g].(holder := None)), t, Done(NoPort))
    case BindPort(t, ok, l) =>
      var g, port := s.calls[t].phase.g, s.calls[t].phase.port;
      var x := s.groups[g];
      if ok then
        SetCall(SetGroup(s, g, x.(holder := None, lns := {l}, params := s.calls[t].params, realPort := port,
                                  opens := x.opens + 1)), t, Done(Listening(l))).(
          listeners := s.listeners[l := Listener(g, Open)])
      else SetCall(SetGroup(s, g, x.(holder := None)), t, Done(BindFailed)).(used := s.used - {port})
    case Join(t, l) =>
      var g := s.calls[t].phase.g;
      var x := s.groups[g];
      var r := Admission(x.params, s.calls[t].params, l);
      if r.Listening? then
        SetCall(SetGroup(s, g, x.(holder := None, lns := x.lns + {l})), t, Done(r)).(
          listeners := s.listeners[l := Listener(g, Open)])
      else SetCall(SetGroup(s, g, x.(holder := None)), t, Done(r))
    case CloseListener(l) => if s.listeners[l].phase.Open? then SetListener(s, l, Closing) else s
    case Unlist(l) =>
      var g := s.listeners[l].g;
      var x := s.groups[g];
      var rest := x.lns - {l};
      if rest != {} then SetListener(SetGroup(s, g, x.(lns := rest)), l, Closed)
      else SetListener(SetGroup(s, g, x.(lns := rest, holder := Some(ByClose(l)), closes := x.closes + 1)), l, Emptied)
    case ReleasePort(l) => SetListener(s, l, Released).(used := s.used - {s.groups[s.listeners[l].g].realPort})
    case RemoveGroup(l) =>
      var g := s.listeners[l].g;
      var x := s.groups[g];
      SetListener(SetGroup(s, g, x.(holder := None)), l, Closed).(
        registry := if Lookup(s.registry, x.name) == Some(g) then s.registry - {x.name} else s.registry)
  }

  const INIT := State(map[], map[], map[], map[], map[])

  predicate IsRun(s: State, run: seq<Step>)
    decreases |run|
  {
    run == [] || (Enabled(s, run[0]) && IsRun(Next(s, run[0]), run[1..]))
  }

  function Exec(s: State, run: seq<Step>): State
    requires IsRun(s, run)
    decreases |run|
  {
    if run == [] then s else Exec(Next(s, run[0]), run[1..])
  }

  // ---- what every run keeps ----

  /** The holder of tg.mu is taking the group down. */
  predicate GoingDown(x: Group) {
    x.holder.Some? && x.holder.value.ByClose?
  }

  /** Where in its life a group is: fresh, listening, going down, or removed for good. */
  predicate LifeOk(s: State, g: Gid)
    requires g in s.groups
  {
    var x := s.groups[g];
    var current := Lookup(s.registry, x.name) == Some(g);
    && (x.lns != {} ==> current && x.opens == 1 && x.closes == 0 && !GoingDown(x) && Lookup(s.used, x.realPort) == Some(g))
    && (x.lns == {} && current && !GoingDown(x) ==> x.opens == 0 && x.closes == 0)
    && (!current || GoingDown(x) ==> x.lns == {} && x.opens == 1 && x.closes == 1)
    && (GoingDown(x) ==> current)
  }

  /** Who its members are and who has its mutex. */
  predicate MembersOk(s: State, g: Gid)
    requires g in s.groups
  {
    var x := s.groups[g];
    && (forall l | l in x.lns ::
          l in s.listeners && s.listeners[l].g == g && (s.listeners[l].phase.Open? || s.listeners[l].phase.Closing?))
    && (x.holder.Some? ==>
          match x.holder.value
          case ByCall(t) => t in s.calls && var p := s.calls[t].phase; (p.Locked? || p.Current? || p.Bound?) && p.g == g
          case ByClose(l) =>
            l in s.listeners && s.listeners[l].g == g && (s.listeners[l].phase.Emptied? || s.listeners[l].phase.Released?))
  }

  predicate GroupOk(s: State, g: Gid)
    requires g in s.groups
  {
    LifeOk(s, g) && MembersOk(s, g)
  }

  predicate CallOk(s: State, t: Tid)
    requires t in s.calls
  {
    var c := s.calls[t];
    match c.phase
    case Fetched(g) => g in s.groups && s.groups[g].name == c.name
    case Locked(g) => g in s.groups && s.groups[g].name == c.name && s.groups[g].holder == Some(ByCall(t))
    case Current(g) => g in s.groups && s.groups[g].name == c.name && s.groups[g].holder == Some(ByCall(t))
                       && Lookup(s.registry, c.name) == Some(g)
    case Bound(g, port) => g in s.groups && s.groups[g].name == c.name && s.groups[g].holder == Some(ByCall(t))
                           && Lookup(s.registry, c.name) == Some(g) && s.groups[g].lns == {} && Lookup(s.used, port) == Some(g)
    case _ => true
  }

  predicate ListenerOk(s: State, l: Lid)
    requires l in s.listeners
  {
    var x := s.listeners[l];
    && x.g in s.groups
    && (x.phase.Open? || x.phase.Closing? ==> l in s.groups[x.g].lns)
    && (x.phase.Emptied? || x.phase.Released? ==> s.groups[x.g].holder == Some(ByClose(l)))
    && (x.phase.Emptied? ==> Lookup(s.used, s.groups[x.g].realPort) == Some(x.g))
  }

  predicate EntryOk(s: State, n: Name)
    requires n in s.registry
  {
    s.registry[n] in s.groups && s.groups[s.registry[n]].name == n
  }

  /** A used port is that of the listeners, of the call about to bind it, or of the close about to release it. */
  predicate PortOk(s: State, p: int)
    requires p in s.used
  {
    s.used[p] in s.groups &&
    var x := s.groups[s.used[p]];
    || (x.lns != {} && x.realPort == p)
    || (x.holder.Some? && match x.holder.value
                          case ByCall(t) => t in s.calls && s.calls[t].phase == Bound(s.used[p], p)
                          case ByClose(l) => Lookup(s.listeners, l) == Some(Listener(s.used[p], Emptied)) && x.realPort == p)
  }

  predicate Inv(s: State) {
    && (forall g {:trigger GroupOk(s, g)} | g in s.groups :: GroupOk(s, g))
    && (forall t {:trigger CallOk(s, t)} | t in s.calls :: CallOk(s, t))
    && (forall l {:trigger ListenerOk(s, l)} | l in s.listeners :: ListenerOk(s, l))
    && (forall n {:trigger EntryOk(s, n)} | n in s.registry :: EntryOk(s, n))
    && (forall p {:trigger PortOk(s, p)} | p in s.used :: PortOk(s, p))
  }

  predicate IsEntering(a: Step) {
    a.Listen? || a.Fetch? || a.Lock?
  }

  predicate IsBinding(a: Step) {
    a.AcquirePort? || a.BindPort? || a.Join?
  }

  predicate IsLeaving(a: Step) {
    a.CloseListener? || a.Unlist? || a.ReleasePort? || a.RemoveGroup?
  }

  /** The facts about the actor of a step and the group it is at. */
  predicate ActorOk(s: State, a: Step)
    requires Enabled(s, a)
  {
    if a.Listen? then true
    else if IsEntering(a) || a.AskCurrent? || IsBinding(a) then
      var c := s.calls[a.t];
      && CallOk(s, a.t) && (c.name in s.registry ==> EntryOk(s, c.name))
      && (!c.phase.Start? && !c.phase.Done? ==> c.phase.g in s.groups && GroupOk(s, c.phase.g))
    else ListenerOk(s, a.l) && GroupOk(s, s.listeners[a.l].g)
  }

  lemma InvGivesActor(s: State, a: Step)
    requires Inv(s) && Enabled(s, a)
    ensures ActorOk(s, a)
  {
    if IsEntering(a) || a.AskCurrent? || IsBinding(a) {
      if !a.Listen? {
        var c := s.calls[a.t];
        assert CallOk(s, a.t) && (c.name in s.registry ==> EntryOk(s, c.name));
        if !c.phase.Start? && !c.phase.Done? { assert GroupOk(s, c.phase.g); }
      }
    } else {
      assert ListenerOk(s, a.l) && GroupOk(s, s.listeners[a.l].g);
    }
  }

  lemma EnteringKeepsLife(s: State, a: Step, g: Gid)
    requires Enabled(s, a) && IsEntering(a) && ActorOk(s, a)
    requires g in Next(s, a).groups && (g in s.groups ==> GroupOk(s, g))
    ensures LifeOk(Next(s, a), g)
  {
  }

  lemma EnteringKeepsMembers(s: State, a: Step, g: Gid)
    requires Enabled(s, a) && IsEntering(a) && ActorOk(s, a)
    requires g in Next(s, a).groups && (g in s.groups ==> GroupOk(s, g))
    ensures MembersOk(Next(s, a), g)
  {
  }

  lemma EnteringKeepsCall(s: State, a: Step, t: Tid)
    requires Enabled(s, a) && IsEntering(a) && ActorOk(s, a)
    requires t in Next(s, a).calls && (t in s.calls ==> CallOk(s, t))
    ensures CallOk(Next(s, a), t)
  {
  }

  lemma EnteringKeepsListener(s: State, a: Step, l: Lid)
    requires Enabled(s, a) && IsEntering(a) && ActorOk(s, a)
    requires l in Next(s, a).listeners && (l in s.listeners ==> ListenerOk(s, l))
    ensures ListenerOk(Next(s, a), l)
  {
  }

  lemma EnteringKeepsPort(s: State, a: Step, p: int)
    requires Enabled(s, a) && IsEntering(a) && ActorOk(s, a)
    requires p in Next(s, a).used && (p in s.used ==> PortOk(s, p))
    ensures PortOk(Next(s, a), p)
  {
  }

  lemma BindingKeepsLife(s: State, a: Step, g: Gid)
    requires Enabled(s, a) && IsBinding(a) && !a.Join? && ActorOk(s, a)
    requires g in Next(s, a).groups && (g in s.groups ==> GroupOk(s, g))
    ensures LifeOk(Next(s, a), g)
  {
  }

  lemma JoiningKeepsLife(s: State, a: Step, g: Gid)
    requires Enabled(s, a) && a.Join? && ActorOk(s, a)
    requires g in Next(s, a).groups && (g in s.groups ==> GroupOk(s, g))
    ensures LifeOk(Next(s, a), g)
  {
  }

  lemma BindingKeepsMembers(s: State, a: Step, g: Gid)
    requires Enabled(s, a) && IsBinding(a) && !a.Join? && ActorOk(s, a)
    requires g in Next(s, a).groups && (g in s.groups ==> GroupOk(s, g))
    ensures MembersOk(Next(s, a), g)
  {
  }

  lemma JoiningKeepsMembers(s: State, a: Step, g: Gid)
    requires Enabled(s, a) && a.Join? && ActorOk(s, a)
    requires g in Next(s, a).groups && (g in s.groups ==> GroupOk(s, g))
    ensures MembersOk(Next(s, a), g)
  {
  }

  lemma BindingKeepsCall(s: State, a: Step, t: Tid)
    requires Enabled(s, a) && IsBinding(a) && ActorOk(s, a)
    requires t in Next(s, a).calls && (t in s.calls ==> CallOk(s, t))
    ensures CallOk(Next(s, a), t)
  {
  }

  lemma BindingKeepsListener(s: State, a: Step, l: Lid)
    requires Enabled(s, a) && IsBinding(a) && ActorOk(s, a)
    requires l in Next(s, a).listeners && (l in s.listeners ==> ListenerOk(s, l))
    ensures ListenerOk(Next(s, a), l)
  {
  }

  lemma BindingKeepsPort(s: State, a: Step, p: int)
    requires Enabled(s, a) && IsBinding(a) && !a.Join? && ActorOk(s, a)
    requires p in Next(s, a).used && (p in s.used ==> PortOk(s, p))
    ensures PortOk(Next(s, a), p)
  {
  }

  lemma JoiningKeepsPort(s: State, a: Step, p: int)
    requires Enabled(s, a) && a.Join? && ActorOk(s, a)
    requires p in Next(s, a).used && (p in s.used ==> PortOk(s, p))
    ensures PortOk(Next(s, a), p)
  {
  }

  lemma AskingKeepsLife(s: State, a: Step, g: Gid)
    requires Enabled(s, a) && a.AskCurrent? && ActorOk(s, a)
    requires g in Next(s, a).groups && (g in s.groups ==> GroupOk(s, g))
    ensures LifeOk(Next(s, a), g)
  {
  }

  lemma AskingKeepsMembers(s: State, a: Step, g: Gid)
    requires Enabled(s, a) && a.AskCurrent? && ActorOk(s, a)
    requires g in Next(s, a).groups && (g in s.groups ==> GroupOk(s, g))
    ensures MembersOk(Next(s, a), g)
  {
  }

  lemma AskingKeepsCall(s: State, a: Step, t: Tid)
    requires Enabled(s, a) && a.AskCurrent? && ActorOk(s, a)
    requires t in Next(s, a).calls && (t in s.calls ==> CallOk(s, t))
    ensures CallOk(Next(s, a), t)
  {
  }

  lemma AskingKeepsListener(s: State, a: Step, l: Lid)
    requires Enabled(s, a) && a.AskCurrent? && ActorOk(s, a)
    requires l in Next(s, a).listeners && (l in s.listeners ==> ListenerOk(s, l))
    ensures ListenerOk(Next(s, a), l)
  {
  }

  lemma AskingKeepsPort(s: State, a: Step, p: int)
    requires Enabled(s, a) && a.AskCurrent? && ActorOk(s, a)
    requires p in Next(s, a).used && (p in s.used ==> PortOk(s, p))
    ensures PortOk(Next(s, a), p)
  {
  }

  lemma LeavingKeepsLife(s: State, a: Step, g: Gid)
    requires Enabled(s, a) && IsLeaving(a) && !a.Unlist? && ActorOk(s, a)
    requires g in Next(s, a).groups && (g in s.groups ==> GroupOk(s, g))
    ensures LifeOk(Next(s, a), g)
  {
  }

  lemma UnlistingKeepsLife(s: State, a: Step, g: Gid)
    requires Enabled(s, a) && a.Unlist? && ActorOk(s, a)
    requires g in Next(s, a).groups && (g in s.groups ==> GroupOk(s, g))
    ensures LifeOk(Next(s, a), g)
  {
  }

  lemma LeavingKeepsMembers(s: State, a: Step, g: Gid)
    requires Enabled(s, a) && IsLeaving(a) && !a.Unlist? && ActorOk(s, a)
    requires g in Next(s, a).groups && (g in s.groups ==> GroupOk(s, g))
    ensures MembersOk(Next(s, a), g)
  {
  }

  lemma UnlistingKeepsMembers(s: State, a: Step, g: Gid)
    requires Enabled(s, a) && a.Unlist? && ActorOk(s, a)
    requires g in Next(s, a).groups && (g in s.groups ==> GroupOk(s, g))
    ensures MembersOk(Next(s, a), g)
  {
  }

  lemma LeavingKeepsCall(s: State, a: Step, t: Tid)
    requires Enabled(s, a) && IsLeaving(a) && ActorOk(s, a)
    requires t in Next(s, a).calls && (t in s.calls ==> CallOk(s, t))
    ensures CallOk(Next(s, a), t)
  {
  }

  lemma LeavingKeepsListener(s: State, a: Step, l: Lid)
    requires Enabled(s, a) && IsLeaving(a) && ActorOk(s, a)
    requires l in Next(s, a).listeners && (l in s.listeners ==> ListenerOk(s, l))
    ensures ListenerOk(Next(s, a), l)
  {
  }

  lemma LeavingKeepsPort(s: State, a: Step, p: int)
    requires Enabled(s, a) && IsLeaving(a) && ActorOk(s, a)
    requires p in Next(s, a).used && (p in s.used ==> PortOk(s, p))
    ensures PortOk(Next(s, a), p)
  {
  }

  lemma StepKeepsGroups(s: State, a: Step)
    requires Inv(s) && Enabled(s, a)
    ensures forall g | g in Next(s, a).groups :: GroupOk(Next(s, a), g)
  {
    InvGivesActor(s, a);
    forall g | g in Next(s, a).groups ensures GroupOk(Next(s, a), g) {
      assert g in s.groups ==> GroupOk(s, g);
      if IsEntering(a) {
        EnteringKeepsLife(s, a, g);
        EnteringKeepsMembers(s, a, g);
      } else if a.Join? {
        JoiningKeepsLife(s, a, g);
        JoiningKeepsMembers(s, a, g);
      } else if IsBinding(a) {
        BindingKeepsLife(s, a, g);
        BindingKeepsMembers(s, a, g);
      } else if a.AskCurrent? {
        AskingKeepsLife(s, a, g);
        AskingKeepsMembers(s, a, g);
      } else if a.Unlist? {
        UnlistingKeepsLife(s, a, g);
        UnlistingKeepsMembers(s, a, g);
      } else {
        LeavingKeepsLife(s, a, g);
        LeavingKeepsMembers(s, a, g);
      }
    }
  }

  lemma StepKeepsActors(s: State, a: Step)
    requires Inv(s) && Enabled(s, a)
    ensures forall t | t in Next(s, a).calls :: CallOk(Next(s, a), t)
    ensures forall l | l in Next(s, a).listeners :: ListenerOk(Next(s, a), l)
  {
    InvGivesActor(s, a);
    forall t | t in Next(s, a).calls ensures CallOk(Next(s, a), t) {
      assert t in s.calls ==> CallOk(s, t);
      if IsEntering(a) {
        EnteringKeepsCall(s, a, t);
      } else if IsBinding(a) {
        BindingKeepsCall(s, a, t);
      } else if a.AskCurrent? {
        AskingKeepsCall(s, a, t);
      } else {
        LeavingKeepsCall(s, a, t);
      }
    }
    forall l | l in Next(s, a).listeners ensures ListenerOk(Next(s, a), l) {
      assert l in s.listeners ==> ListenerOk(s, l);
      if IsEntering(a) {
        EnteringKeepsListener(s, a, l);
      } else if IsBinding(a) {
        BindingKeepsListener(s, a, l);
      } else if a.AskCurrent? {
        AskingKeepsListener(s, a, l);
      } else {
        LeavingKeepsListener(s, a, l);
      }
    }
  }

  lemma StepKeepsPorts(s: State, a: Step)
    requires Inv(s) && Enabled(s, a)
    ensures forall p | p in Next(s, a).used :: PortOk(Next(s, a), p)
  {
    InvGivesActor(s, a);
    forall p | p in Next(s, a).used ensures PortOk(Next(s, a), p) {
      assert p in s.used ==> PortOk(s, p);
      if IsEntering(a) {
        EnteringKeepsPort(s, a, p);
      } else if a.Join? {
        JoiningKeepsPort(s, a, p);
      } else if IsBinding(a) {
        BindingKeepsPort(s, a, p);
      } else if a.AskCurrent? {
        AskingKeepsPort(s, a, p);
      } else {
        LeavingKeepsPort(s, a, p);
      }
    }
  }

  lemma StepKeepsEntries(s: State, a: Step)
    requires Inv(s) && Enabled(s, a)
    ensures forall n | n in Next(s, a).registry :: EntryOk(Next(s, a), n)
  {
    forall n | n in Next(s, a).registry ensures EntryOk(Next(s, a), n) {
      assert n in s.registry ==> EntryOk(s, n);
    }
  }

  lemma StepKeeps(s: State, a: Step)
    requires Inv(s) && Enabled(s, a)
    ensures Inv(Next(s, a))
  {
    StepKeepsGroups(s, a);
    StepKeepsActors(s, a);
    StepKeepsPorts(s, a);
    StepKeepsEntries(s, a);
  }

  lemma {:induction false} RunKeeps(s: State, run: seq<Step>)
    requires Inv(s) && IsRun(s, run)
    ensures Inv(Exec(s, run))
    decreases |run|
  {
    if run != [] {
      StepKeeps(s, run[0]);
      RunKeeps(Next(s, run[0]), run[1..]);
    }
  }

  // ---- the theorems ----

  /** A group with listeners is the registry's; its accept channel was made once and not closed. */
  lemma ListeningGroupIsCurrent(run: seq<Step>, g: Gid)
    requires IsRun(INIT, run) && g in Exec(INIT, run).groups
    ensures var s := Exec(INIT, run);
            var x := s.groups[g];
            && x.closes <= x.opens <= 1
            && (x.lns != {} ==> Lookup(s.registry, x.name) == Some(g) && x.opens == 1 && x.closes == 0)
  {
    RunKeeps(INIT, run);
    assert GroupOk(Exec(INIT, run), g);
  }

  predicate Removed(s: State, g: Gid) {
    g in s.groups && Lookup(s.registry, s.groups[g].name) != Some(g)
  }

  lemma RemovedStays(s: State, a: Step, g: Gid)
    requires Inv(s) && Enabled(s, a) && Removed(s, g)
    ensures Removed(Next(s, a), g)
  {
    InvGivesActor(s, a);
  }

  /** Once a group has left the registry it never gets a listener again and is never the registry's again. */
  lemma {:induction false} RemovedGroupStaysEmpty(s: State, run: seq<Step>, g: Gid)
    requires Inv(s) && Removed(s, g) && IsRun(s, run)
    ensures Removed(Exec(s, run), g) && Exec(s, run).groups[g].lns == {} && Exec(s, run).groups[g].closes == 1
    decreases |run|
  {
    if run == [] {
      assert GroupOk(s, g);
    } else {
      RemovedStays(s, run[0], g);
      StepKeeps(s, run[0]);
      RemovedGroupStaysEmpty(Next(s, run[0]), run[1..], g);
    }
  }

  /** While nobody is inside a group, it has a port exactly when it has listeners, and then it is its real port. */
  lemma PortUsedWhileListening(run: seq<Step>, g: Gid, p: int)
    requires IsRun(INIT, run) && g in Exec(INIT, run).groups && Exec(INIT, run).groups[g].holder.None?
    ensures var s := Exec(INIT, run);
            Lookup(s.used, p) == Some(g) <==> s.groups[g].lns != {} && s.groups[g].realPort == p
  {
    RunKeeps(INIT, run);
    var s := Exec(INIT, run);
    assert GroupOk(s, g);
    assert p in s.used ==> PortOk(s, p);
  }

  /** A call is sent back for another try only because its group was removed, so the next try meets another group. */
  lemma RetryMeetsAnotherGroup(run: seq<Step>, t: Tid, more: seq<Step>, made: Gid)
    requires IsRun(INIT, run)
    requires var s := Exec(INIT, run);
             && Enabled(s, AskCurrent(t)) && Next(s, AskCurrent(t)).calls[t].phase.Start?
             && IsRun(Next(s, AskCurrent(t)), more)
             && Enabled(Exec(Next(s, AskCurrent(t)), more), Fetch(t, made))
    ensures var s := Exec(INIT, run);
            var g := s.calls[t].phase.g;
            var s2 := Exec(Next(s, AskCurrent(t)), more);
            Removed(s, g) && Next(s2, Fetch(t, made)).calls[t].phase != Fetched(g)
  {
    RunKeeps(INIT, run);
    var s := Exec(INIT, run);
    var a, g := AskCurrent(t), s.calls[t].phase.g;
    assert CallOk(s, t);
    RemovedStays(s, a, g);
    StepKeeps(s, a);
    RemovedGroupStaysEmpty(Next(s, a), more, g);
    RunKeeps(Next(s, a), more);
    var s2 := Exec(Next(s, a), more);
    var name := s2.calls[t].name;
    assert name in s2.registry ==> EntryOk(s2, name);
  }

  // ---- what a call and a close come to ----

  /** A further member must agree in address, port and key, and is told the first in which it does not. */
  lemma AdmissionExact(group: Params, mine: Params, l: Lid)
    ensures Admission(group, mine, l) == Listening(l) <==> group == mine
    ensures Admission(group, mine, l).AuthFailed? <==> group.addr == mine.addr && group.port == mine.port && group.key != mine.key
    ensures Admission(group, mine, l).DifferentPort? <==> group.addr == mine.addr && group.port != mine.port
    ensures Admission(group, mine, l).ParamsInvalid? <==> group.addr != mine.addr
  {
  }

  /** The call has its answer and has let go of the group; of the other groups and calls nothing changed. */
  predicate Answered(s: State, s': State, t: Tid, g: Gid, r: Outcome)
    requires t in s.calls
  {
    && s'.calls == s.calls[t := s.calls[t].(phase := Done(r))]
    && g in s'.groups && s'.groups[g].holder.None? && s'.groups - {g} == s.groups - {g} && s'.registry == s.registry
  }

  /** The first member gets the port it is granted and can bind, and the group takes its parameters. */
  lemma FirstMemberListens(s: State, t: Tid, g: Gid, port: int, l: Lid) returns (s1: State, s2: State)
    requires t in s.calls && s.calls[t].phase == Current(g) && g in s.groups && s.groups[g].lns == {}
    requires port !in s.used && l !in s.listeners
    ensures Enabled(s, AcquirePort(t, Some(port))) && s1 == Next(s, AcquirePort(t, Some(port)))
    ensures Enabled(s1, BindPort(t, true, l)) && s2 == Next(s1, BindPort(t, true, l))
    ensures Answered(s, s2, t, g, Listening(l)) && s2.listeners == s.listeners[l := Listener(g, Open)]
    ensures s2.used == s.used[port := g] && s2.groups[g].realPort == port && s2.groups[g].lns == {l}
    ensures s2.groups[g].params == s.calls[t].params && s2.groups[g].opens == s.groups[g].opens + 1
  {
    s1 := Next(s, AcquirePort(t, Some(port)));
    s2 := Next(s1, BindPort(t, true, l));
  }

  /** Without a port, or if it cannot be bound, the call fails and the ports and the members are as they were. */
  lemma FirstMemberFails(s: State, t: Tid, g: Gid, port: int, l: Lid) returns (s1: State, s2: State)
    requires t in s.calls && s.calls[t].phase == Current(g) && g in s.groups && s.groups[g].lns == {}
    requires port !in s.used && l !in s.listeners
    ensures Enabled(s, AcquirePort(t, None)) && Answered(s, Next(s, AcquirePort(t, None)), t, g, NoPort)
    ensures Next(s, AcquirePort(t, None)).used == s.used && Next(s, AcquirePort(t, None)).groups[g].lns == {}
    ensures Enabled(s, AcquirePort(t, Some(port))) && s1 == Next(s, AcquirePort(t, Some(port)))
    ensures Enabled(s1, BindPort(t, false, l)) && s2 == Next(s1, BindPort(t, false, l))
    ensures Answered(s, s2, t, g, BindFailed) && s2.used == s.used && s2.groups[g].lns == {} && s2.listeners == s.listeners
  {
    s1 := Next(s, AcquirePort(t, Some(port)));
    s2 := Next(s1, BindPort(t, false, l));
  }

  /** A further member joins exactly if it agrees with the group, and is otherwise told why not. */
  lemma FurtherMemberJoins(s: State, t: Tid, g: Gid, l: Lid)
    requires t in s.calls && s.calls[t].phase == Current(g) && g in s.groups && s.groups[g].lns != {} && l !in s.listeners
    ensures var s', x := Next(s, Join(t, l)), s.groups[g];
            var r := Admission(x.params, s.calls[t].params, l);
            && Answered(s, s', t, g, r) && s'.used == s.used
            && s'.groups[g] == x.(holder := None, lns := if x.params == s.calls[t].params then x.lns + {l} else x.lns)
            && s'.listeners == if x.params == s.calls[t].params then s.listeners[l := Listener(g, Open)] else s.listeners
  {
  }

  /** A call goes on exactly if its group is the registry's; otherwise it starts over. */
  lemma StaleCallStartsOver(s: State, t: Tid, g: Gid)
    requires t in s.calls && s.calls[t].phase == Locked(g) && g in s.groups
    ensures var p := Next(s, AskCurrent(t)).calls[t].phase;
            if Lookup(s.registry, s.calls[t].name) == Some(g) then p == Current(g) else p == Start
  {
  }

  /** The last listener to close takes the group down: the port is free and the name is nobody's. */
  lemma LastCloseFrees(s: State, l: Lid, g: Gid) returns (s1: State, s2: State, s3: State, s4: State)
    requires l in s.listeners && s.listeners[l] == Listener(g, Open) && g in s.groups
    requires s.groups[g].lns == {l} && s.groups[g].holder.None? && Lookup(s.registry, s.groups[g].name) == Some(g)
    ensures Enabled(s, CloseListener(l)) && s1 == Next(s, CloseListener(l))
    ensures Enabled(s1, Unlist(l)) && s2 == Next(s1, Unlist(l))
    ensures Enabled(s2, ReleasePort(l)) && s3 == Next(s2, ReleasePort(l))
    ensures Enabled(s3, RemoveGroup(l)) && s4 == Next(s3, RemoveGroup(l))
    ensures s4.used == s.used - {s.groups[g].realPort} && s4.registry == s.registry - {s.groups[g].name}
    ensures s4.groups == s.groups[g := s.groups[g].(lns := {}, closes := s.groups[g].closes + 1)]
    ensures s4.listeners == s.listeners[l := Listener(g, Closed)] && s4.calls == s.calls
  {
    s1 := Next(s, CloseListener(l));
    s2 := Next(s1, Unlist(l));
    s3 := Next(s2, ReleasePort(l));
    s4 := Next(s3, RemoveGroup(l));
  }

  /** Any other leaves the group listening. */
  lemma OtherCloseLeaves(s: State, l: Lid, g: Gid) returns (s1: State, s2: State)
    requires l in s.listeners && s.listeners[l] == Listener(g, Open) && g in s.groups
    requires s.groups[g].lns - {l} != {} && s.groups[g].holder.None?
    ensures Enabled(s, CloseListener(l)) && s1 == Next(s, CloseListener(l))
    ensures Enabled(s1, Unlist(l)) && s2 == Next(s1, Unlist(l))
    ensures s2 == s.(groups := s.groups[g := s.groups[g].(lns := s.groups[g].lns - {l})],
                     listeners := s.listeners[l := Listener(g, Closed)])
  {
    s1 := Next(s, CloseListener(l));
    s2 := Next(s1, Unlist(l));
  }
}

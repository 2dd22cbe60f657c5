/** The group registry, the shared part of listener groups, and their listeners, as objects. */
module GroupObjects {
  import opened Options
  import T = TcpGroups

  /** groupRegistry: a map of named groups, created on first access. */
  class Registry<G(==)> {
    var groups: map<string, G>

    constructor ()
      ensures groups == map[]
    {
      groups := map[];
    }

    /** `made` is what newFn would make; it is stored only if there is no group yet. */
    method GetOrCreate(key: string, made: G) returns (g: G)
      modifies this
      ensures Lookup(groups, key) == Some(g) && groups == old(groups)[key := g]
      ensures g == if key in old(groups) then old(groups)[key] else made
    {
      if key in groups {
        return groups[key];
      }
      groups := groups[key := made];
      return made;
    }

    method IsCurrent(key: string, g: G) returns (current: bool)
      ensures current <==> Lookup(groups, key) == Some(g)
    {
      current := key in groups && groups[key] == g;
    }

    /** removeIf with the matching function every caller passes: is it still this group? */
    method RemoveIf(key: string, g: G)
      modifies this
      ensures groups == if Lookup(old(groups), key) == Some(g) then old(groups) - {key} else old(groups)
    {
      if key in groups && groups[key] == g {
        groups := groups - {key};
      }
    }
  }

  function Without<T(==)>(s: seq<T>, x: T): seq<T> {
    if s == [] then [] else if s[0] == x then s[1..] else [s[0]] + Without(s[1..], x)
  }

  class Listener {
    const group: BaseGroup
    var once: bool          // the sync.Once has fired
    var closed: bool        // closeCh is closed

    constructor (group: BaseGroup)
      ensures this.group == group && !once && !closed
    {
      this.group := group;
      once, closed := false, false;
    }

    /** Close: only the first call reaches the group. */
    method Close()
      requires group.Valid() && (!once ==> this in group.lns)
      modifies this, group
      ensures group.Valid() && once && (old(once) ==> unchanged(group) && closed == old(closed))
      ensures !old(once) ==> closed && group.lns == Without(old(group.lns), this)
      ensures !old(once) ==> group.cleanups == old(group.cleanups) + (if group.lns == [] then 1 else 0)
    {
      if !once {
        once := true;
        closed := true;
        group.CloseListener(this);
      }
    }
  }

  predicate NoDuplicates<T(==)>(s: seq<T>) {
    forall i, j | 0 <= i < j < |s| :: s[i] != s[j]
  }

  lemma {:induction false} WithoutAt<T>(s: seq<T>, i: nat)
    requires i < |s| && (forall j | 0 <= j < i :: s[j] != s[i])
    ensures Without(s, s[i]) == s[..i] + s[i + 1..]
  {
    if i > 0 {
      WithoutAt(s[1..], i - 1);
      assert s[..i] + s[i + 1..] == [s[0]] + (s[1..][..i - 1] + s[1..][i..]);
    }
  }

  lemma {:induction false} WithoutAbsent<T>(s: seq<T>, x: T)
    requires x !in s
    ensures Without(s, x) == s
  {
    if s != [] {
      WithoutAbsent(s[1..], x);
    }
  }

  /** Removal from a duplicate-free list takes the element out and keeps the rest, in order. */
  lemma {:induction false} WithoutRemoves<T>(s: seq<T>, x: T)
    requires NoDuplicates(s)
    ensures NoDuplicates(Without(s, x)) && forall y :: y in Without(s, x) <==> y in s && y != x
  {
    if s != [] {
      WithoutRemoves(s[1..], x);
      assert s[0] !in s[1..];
      assert forall y :: y in s <==> y == s[0] || y in s[1..];
    }
  }

  class BaseGroup {
    var lns: seq<Listener>
    var opens: nat          // accept channels made
    var acceptCloses: nat   // times one was closed
    var cleanups: nat       // times cleanupFn ran

    /** A listening cycle is under way exactly while there are listeners, and every cycle is closed once. */
    ghost predicate Valid()
      reads this
    {
      && NoDuplicates(lns) && (forall l | l in lns :: l.group == this)
      && acceptCloses == cleanups && opens == cleanups + (if lns == [] then 0 else 1)
    }

    constructor ()
      ensures Valid() && lns == [] && opens == 0
    {
      lns, opens, acceptCloses, cleanups := [], 0, 0, 0;
    }

    /** newListener, after initBase when it is the first of a cycle. */
    method NewListener() returns (ln: Listener)
      requires Valid()
      modifies this
      ensures Valid() && fresh(ln) && ln.group == this && !ln.once && lns == old(lns) + [ln]
      ensures opens == old(opens) + (if old(lns) == [] then 1 else 0) && cleanups == old(cleanups)
    {
      if |lns| == 0 {
        opens := opens + 1;
      }
      ln := new Listener(this);
      lns := lns + [ln];
    }

    /** closeListener: splices the listener out; the last one closes the cycle. On a group without any, it would
        close a closed channel. */
    method CloseListener(ln: Listener)
      requires Valid() && lns != []
      modifies this
      ensures Valid() && lns == Without(old(lns), ln) && opens == old(opens)
      ensures cleanups == old(cleanups) + (if lns == [] then 1 else 0)
    {
      WithoutRemoves(lns, ln);
      for i := 0 to |lns|
        invariant lns == old(lns) && opens == old(opens) && cleanups == old(cleanups) && acceptCloses == old(acceptCloses)
        invariant forall j | 0 <= j < i :: lns[j] != ln
      {
        if lns[i] == ln {
          WithoutAt(lns, i);
          lns := lns[..i] + lns[i + 1..];
          break;
        }
      }
      if lns == old(lns) && ln !in lns {
        WithoutAbsent(lns, ln);
      }
      if |lns| == 0 {
        acceptCloses := acceptCloses + 1;
        cleanups := cleanups + 1;
      }
    }
  }

  /** The ports that are in use, as far as groups care. */
  class Ports {
    var used: set<int>

    constructor (used: set<int>)
      ensures this.used == used
    {
      this.used := used;
    }
  }

  datatype ListenResult = Stale | Answer(r: T.Outcome)

  class TCPGroup {
    const ctl: Registry<TCPGroup>
    const ports: Ports
    const base: BaseGroup
    var group: string
    var params: T.Params
    var realPort: int

    /** While it has listeners, a group is the registry's and its port is in use. */
    ghost predicate Valid()
      reads this, ctl, ports, base
    {
      base.Valid() && (base.lns != [] ==> Lookup(ctl.groups, group) == Some(this) && realPort in ports.used)
    }

    constructor (ctl: Registry<TCPGroup>, ports: Ports)
      ensures Valid() && this.ctl == ctl && this.ports == ports && base.lns == [] && fresh(base)
    {
      var b := new BaseGroup();
      this.ctl, this.ports, this.base := ctl, ports, b;
      group, params, realPort := "", T.Params("", "", 0), 0;
    }

    /** Listen; `granted` is the port manager's answer and `bound` whether that port could be listened on. */
    method Listen(name: string, mine: T.Params, granted: Option<int>, bound: bool)
      returns (r: ListenResult, ln: Listener?)
      requires Valid() && (granted.Some? ==> granted.value !in ports.used)
      modifies this, base, ports
      ensures Valid() && (r.Stale? <==> Lookup(ctl.groups, name) != Some(this))
      ensures r.Answer? && old(base.lns) == [] ==>
                && (r.r.NoPort? <==> granted.None?) && (r.r.BindFailed? <==> granted.Some? && !bound)
                && (r.r.Listening? <==> granted.Some? && bound)
                && (r.r.Listening? ==> group == name && params == mine && realPort == granted.value)
      ensures r.Answer? && old(base.lns) != [] ==>
                r.r == if old(group) != name then T.ParamsInvalid else T.Admission(old(params), mine, 0)
      ensures ln == null || old(base.lns) != [] ==>
                group == old(group) && params == old(params) && realPort == old(realPort)
      ensures (ln != null <==> r.Answer? && r.r.Listening?)
      ensures if ln != null then base.lns == old(base.lns) + [ln] && ports.used == old(ports.used) + {realPort}
              else base.lns == old(base.lns) && ports.used == old(ports.used)
    {
      ln := null;
      var current := ctl.IsCurrent(name, this);
      if !current {
        return Stale, null;
      }
      if |base.lns| == 0 {
        if granted.None? {
          return Answer(T.NoPort), null;
        }
        ports.used := ports.used + {granted.value};
        if !bound {
          ports.used := ports.used - {granted.value};
          return Answer(T.BindFailed), null;
        }
        group, params, realPort := name, mine, granted.value;
      } else {
        if group != name || params.addr != mine.addr {
          return Answer(T.ParamsInvalid), null;
        }
        if params.port != mine.port {
          return Answer(T.DifferentPort), null;
        }
        if params.key != mine.key {
          return Answer(T.AuthFailed), null;
        }
      }
      ln := base.NewListener();
      r := Answer(T.Listening(0));
    }

    /** A listener closes; after the last one the cleanup gives the port back and leaves the registry. */
    method CloseListener(ln: Listener)
      requires Valid() && ln.group == base && !ln.once && ln in base.lns
      modifies ln, base, ports, ctl
      ensures Valid() && ln.once && base.lns == Without(old(base.lns), ln)
      ensures if base.lns == [] then
                && ports.used == old(ports.used) - {realPort}
                && ctl.groups == old(ctl.groups) - {group}
              else ports.used == old(ports.used) && ctl.groups == old(ctl.groups)
    {
      ln.Close();
      if base.lns == [] {
        ports.used := ports.used - {realPort};
        ctl.RemoveIf(group, this);
      }
    }
  }
}

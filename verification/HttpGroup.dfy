/**
 An HTTP group: proxies that share one route and take turns. The group is a value
 here and a class below; the routes of everybody else may come and go meanwhile.
 */
module HttpGroup {
  import opened Options
  import opened GroupObjects

  type Fn = nat // a vhost.CreateConnFunc

  const WRAP: nat := 0x1_0000_0000_0000_0000 // of the atomic uint64

  /** What a route is looked up by, the domain in lower case. */
  datatype Route = Route(domain: string, location: string, user: string)

  datatype Owner = Mine | Others

  datatype Group = Group(
    entry: string,              // the name the registry made it under
    name: string,               // of the first member's registration
    key: string,
    route: Route,
    funcs: map<string, Fn>,
    names: seq<string>,
    index: nat,
    removed: bool,              // the registry has given the name to nobody or to a later group
    routes: map<Route, Owner>)  // the vhost routers

  datatype Error = Ok | Stale | RouteConflict | ParamsInvalid | AuthFailed | Repeated

  /** HTTPGroup.Register. */
  function Registered(g: Group, pxy: string, name: string, key: string, route: Route, fn: Fn): (Group, Error) {
    if g.removed || name != g.entry then (g, Error.Stale)
    else if g.funcs == map[] then
      if route in g.routes then (g, RouteConflict)
      else (g.(name := name, key := key, route := route, routes := g.routes[route := Mine],
               funcs := map[pxy := fn], names := g.names + [pxy]), Ok)
    else if g.name != name || g.route != route then (g, ParamsInvalid)
    else if g.key != key then (g, AuthFailed)
    else if pxy in g.funcs then (g, Repeated)
    else (g.(funcs := g.funcs[pxy := fn], names := g.names + [pxy]), Ok)
  }

  /** HTTPGroup.UnRegister: the last member takes the route and the registry entry with it. */
  function Unregistered(g: Group, pxy: string): Group {
    var g' := g.(funcs := g.funcs - {pxy}, names := Without(g.names, pxy));
    if g'.funcs == map[] then g'.(routes := g.routes - {g.route}, removed := g.removed || g.name == g.entry) else g'
  }

  function Drawn(g: Group): Group {
    g.(index := (g.index + 1) % WRAP)
  }

  /** The member a draw picks, once the index has been advanced. */
  function Turn(g: Group): Option<string> {
    if g.names == [] then None else Some(g.names[g.index % |g.names|])
  }

  function Fresh(entry: string, routes: map<Route, Owner>): Group {
    Group(entry, "", "", Route("", "", ""), map[], [], 0, false, routes)
  }

  // ---- what each operation does ----

  /** Which answer a registration gets, and that only a successful one changes anything. */
  lemma RegisterAnswers(g: Group, pxy: string, name: string, key: string, route: Route, fn: Fn)
    ensures var (g', e) := Registered(g, pxy, name, key, route, fn);
            && (e.Stale? <==> g.removed || name != g.entry)
            && (e.RouteConflict? <==> !e.Stale? && g.funcs == map[] && route in g.routes)
            && (e.ParamsInvalid? <==> !e.Stale? && g.funcs != map[] && (g.name != name || g.route != route))
            && (e.AuthFailed? <==> !e.Stale? && g.funcs != map[] && g.name == name && g.route == route && g.key != key)
            && (e.Repeated? <==> !e.Stale? && g.funcs != map[] && g.name == name && g.route == route && g.key == key
                                 && pxy in g.funcs)
            && (!e.Ok? ==> g' == g)
            && (e.Ok? ==> && g'.funcs == g.funcs[pxy := fn] && g'.names == g.names + [pxy]
                          && g'.name == name && g'.route == route && g'.key == key && Lookup(g'.routes, route) ==
                             (if g.funcs == map[] then Some(Mine) else Lookup(g.routes, route))
                          && g'.routes - {route} == g.routes - {route} && g'.index == g.index && !g'.removed)
  {
  }

  /** A member that unregisters is gone; the others stay in their order; the last one takes the route along. */
  lemma UnregisterRemoves(g: Group, pxy: string)
    ensures var g' := Unregistered(g, pxy);
            && g'.funcs == g.funcs - {pxy} && g'.names == Without(g.names, pxy) && g'.index == g.index
            && (g'.funcs != map[] ==> g'.routes == g.routes && g'.removed == g.removed)
            && (g'.funcs == map[] ==> g'.routes == g.routes - {g.route} && (g.name == g.entry ==> g'.removed))
  {
  }

  // ---- what every run keeps ----

  datatype Op =
    | Register(pxy: string, name: string, key: string, route: Route, fn: Fn)
    | UnRegister(pxy: string)
    | Draw
    | OtherAdds(route: Route)
    | OtherDeletes(route: Route)

  /** Others add and delete only routes of their own. */
  predicate Legal(g: Group, op: Op) {
    match op
    case OtherAdds(r) => r !in g.routes
    case OtherDeletes(r) => Lookup(g.routes, r) == Some(Others)
    case _ => true
  }

  function Apply(g: Group, op: Op): Group {
    match op
    case Register(pxy, name, key, route, fn) => Registered(g, pxy, name, key, route, fn).0
    case UnRegister(pxy) => Unregistered(g, pxy)
    case Draw => Drawn(g)
    case OtherAdds(r) => g.(routes := g.routes[r := Others])
    case OtherDeletes(r) => g.(routes := g.routes - {r})
  }

  predicate IsRun(g: Group, ops: seq<Op>)
    decreases |ops|
  {
    ops == [] || (Legal(g, ops[0]) && IsRun(Apply(g, ops[0]), ops[1..]))
  }

  function Exec(g: Group, ops: seq<Op>): Group
    decreases |ops|
  {
    if ops == [] then g else Exec(Apply(g, ops[0]), ops[1..])
  }

  ghost predicate Lists(names: seq<string>, funcs: map<string, Fn>) {
    NoDuplicates(names) && (forall n :: n in names <==> n in funcs) && (names == [] <==> funcs == map[])
  }

  /** The names list the members without repetition, and the route is the group's exactly while it has members. */
  ghost predicate Inv(g: Group) {
    && Lists(g.names, g.funcs)
    && (forall r | r in g.routes && g.routes[r].Mine? :: g.funcs != map[] && r == g.route)
    && (g.funcs != map[] ==> Lookup(g.routes, g.route) == Some(Mine) && !g.removed && g.name == g.entry)
    && g.index < WRAP
  }

  lemma StillLists(names: seq<string>, funcs: map<string, Fn>, pxy: string)
    requires Lists(names, funcs)
    ensures Lists(Without(names, pxy), funcs - {pxy})
  {
    WithoutRemoves(names, pxy);
    var names', funcs' := Without(names, pxy), funcs - {pxy};
    assert names' != [] ==> names'[0] in funcs';
    if funcs' != map[] {
      var n :| n in funcs';
      assert n in names';
    }
  }

  lemma StepKeeps(g: Group, op: Op)
    requires Inv(g) && Legal(g, op)
    ensures Inv(Apply(g, op))
  {
    if op.UnRegister? {
      StillLists(g.names, g.funcs, op.pxy);
    } else if op.Register? {
      assert op.pxy in g.funcs[op.pxy := op.fn];
    }
  }

  /** After any run, whoever else uses the router. */
  lemma {:induction false} RouteWhileMembers(g: Group, ops: seq<Op>)
    requires Inv(g) && IsRun(g, ops)
    ensures Inv(Exec(g, ops))
    decreases |ops|
  {
    if ops != [] {
      StepKeeps(g, ops[0]);
      RouteWhileMembers(Apply(g, ops[0]), ops[1..]);
    }
  }

  /** In particular after any run of a new group. */
  lemma NewGroupRoutes(entry: string, routes: map<Route, Owner>, ops: seq<Op>)
    requires (forall r | r in routes :: routes[r].Others?) && IsRun(Fresh(entry, routes), ops)
    ensures Inv(Exec(Fresh(entry, routes), ops))
  {
    RouteWhileMembers(Fresh(entry, routes), ops);
  }

  /** Unregistering takes a route away from somebody else exactly when the group has no member left to unregister. */
  lemma OthersKeepTheirRoutes(g: Group, pxy: string)
    requires Inv(g)
    ensures (forall r | r in g.routes && g.routes[r].Others? :: Lookup(Unregistered(g, pxy).routes, r) == Some(Others)) <==>
            !(g.funcs == map[] && Lookup(g.routes, g.route) == Some(Others))
  {
    var g' := Unregistered(g, pxy);
    assert g'.routes == g.routes || g'.routes == g.routes - {g.route};
    if g.funcs == map[] {
      assert g'.funcs == map[];
    }
  }

  /**
   How a group gets there: its member unregisters, another group takes the route, and somebody who is no member
   any more unregisters again. The other group is left without its route.
   */
  lemma StaleUnregisterTakesRoute(r: Route, fn: Fn)
    ensures var g := Fresh("g", map[]);
            var ops := [Register("p", "g", "", r, fn), UnRegister("p"), OtherAdds(r)];
            && IsRun(g, ops) && Exec(g, ops).funcs == map[] && Lookup(Exec(g, ops).routes, r) == Some(Others)
            && Legal(Exec(g, ops), UnRegister("p")) && r !in Apply(Exec(g, ops), UnRegister("p")).routes
  {
    var g := Fresh("g", map[]);
    var ops := [Register("p", "g", "", r, fn), UnRegister("p"), OtherAdds(r)];
    var g1 := Apply(g, ops[0]);
    var g2 := Apply(g1, ops[1]);
    assert g1.funcs == map["p" := fn] && g1.routes == map[r := Mine] && g1.route == r;
    assert g2.funcs == map[] && g2.routes == map[];
    assert ops[1..] == [UnRegister("p"), OtherAdds(r)] && ops[1..][1..] == [OtherAdds(r)];
    assert IsRun(g2, [OtherAdds(r)]) && Exec(g2, [OtherAdds(r)]) == Apply(g2, OtherAdds(r));
    assert IsRun(g1, ops[1..]) && Exec(g1, ops[1..]) == Exec(g2, [OtherAdds(r)]);
  }

  // ---- taking turns ----

  /** The member number drawn by the k-th of several draws from index i on. */
  function Pick(i: nat, k: nat, n: nat, wrap: nat): nat
    requires 0 < n && 0 < wrap
  {
    (i + k) % wrap % n
  }

  /** Of the n draws after index i, exactly one picks member r. */
  predicate PickedOnce(i: nat, n: nat, wrap: nat, r: nat)
    requires 0 < n && 0 < wrap
  {
    exists k | 1 <= k <= n :: Pick(i, k, n, wrap) == r && forall l | 1 <= l <= n && l != k :: Pick(i, l, n, wrap) != r
  }

  predicate FairRound(i: nat, n: nat, wrap: nat)
    requires 0 < n && 0 < wrap
  {
    forall r | 0 <= r < n :: PickedOnce(i, n, wrap, r)
  }

  lemma {:induction false} MulAtLeast(n: int, d: int)
    requires n >= 0
    ensures d >= 1 ==> n * d >= n
    ensures d <= -1 ==> n * d <= -n
    decreases if d < 0 then -d else d
  {
    if d > 1 {
      MulAtLeast(n, d - 1);
      assert n * d == n * (d - 1) + n;
    } else if d < -1 {
      MulAtLeast(n, d + 1);
      assert n * d == n * (d + 1) - n;
    }
  }

  lemma ModUnique(x: nat, q: nat, a: nat, n: nat)
    requires 0 < n && a < n && x == n * q + a
    ensures x % n == a
  {
    var q' := x / n;
    assert n * (q - q') == n * q - n * q';
    MulAtLeast(n, q - q');
  }

  lemma ModShift(i: nat, k: nat, n: nat)
    requires 0 < n && k <= n
    ensures (i + k) % n == if i % n + k < n then i % n + k else i % n + k - n
  {
    var q, a := i / n, i % n;
    assert i + k == n * q + (a + k);
    if a + k < n {
      ModUnique(i + k, q, a + k, n);
    } else {
      assert i + k == n * (q + 1) + (a + k - n);
      ModUnique(i + k, q + 1, a + k - n, n);
    }
  }

  lemma AddMultiple(x: nat, n: nat, c: nat)
    requires 0 < n
    ensures (x + n * c) % n == x % n
  {
    assert x + n * c == n * (x / n + c) + x % n;
    ModUnique(x + n * c, x / n + c, x % n, n);
  }

  lemma PastTheWrap(x: nat, n: nat, wrap: nat)
    requires 0 < n <= wrap <= x < 2 * wrap && wrap % n == 0
    ensures x % wrap % n == x % n
  {
    assert x == wrap * 1 + (x - wrap);
    ModUnique(x, 1, x - wrap, wrap);
    AddMultiple(x - wrap, n, wrap / n);
    assert n * (wrap / n) == wrap;
  }

  /** Draws that no wrap divides, or that a harmless wrap divides, run through the members in a circle. */
  lemma PickInCircle(i: nat, k: nat, n: nat, wrap: nat)
    requires 0 < n <= wrap && i < wrap && 1 <= k <= n
    requires i + n < wrap || wrap % n == 0
    ensures Pick(i, k, n, wrap) == if i % n + k < n then i % n + k else i % n + k - n
  {
    ModShift(i, k, n);
    if i + k < wrap {
      ModUnique(i + k, 0, i + k, wrap);
    } else {
      PastTheWrap(i + k, n, wrap);
    }
  }

  /** A circle from any start meets every member once. */
  lemma CircleMeetsOnce(i: nat, n: nat, wrap: nat, r: nat)
    requires 0 < n <= wrap && i < wrap && r < n
    requires i + n < wrap || wrap % n == 0
    ensures PickedOnce(i, n, wrap, r)
  {
    var a := i % n;
    var k := if r > a then r - a else r - a + n;
    PickInCircle(i, k, n, wrap);
    forall l | 1 <= l <= n && l != k ensures Pick(i, l, n, wrap) != r {
      PickInCircle(i, l, n, wrap);
    }
    assert Pick(i, k, n, wrap) == r;
  }

  /** Starting right at the wrap, the draws are 0, 1, ..., n - 1. */
  lemma FromTheWrap(n: nat, wrap: nat, r: nat)
    requires 0 < n <= wrap && r < n
    ensures PickedOnce(wrap - 1, n, wrap, r)
  {
    var i := wrap - 1;
    forall l | 1 <= l <= n ensures Pick(i, l, n, wrap) == l - 1 {
      assert wrap - 1 + l == wrap * 1 + (l - 1);
      ModUnique(wrap - 1 + l, 1, l - 1, wrap);
      ModUnique(l - 1, 0, l - 1, n);
    }
    assert Pick(i, r + 1, n, wrap) == r;
  }

  /** A wrap in the middle of the draws, at a number of members that does not divide it, picks somebody twice. */
  lemma WrapPicksTwice(i: nat, n: nat, wrap: nat)
    requires 0 < n <= wrap && i < wrap - 1 && i + n >= wrap && wrap % n != 0
    ensures !FairRound(i, n, wrap)
  {
    var w := wrap % n;
    var m := i + n - wrap + 1;           // draws after the wrap
    var r := if w <= m then w - 1 else m - 1;
    var early := wrap - w + r - i;       // picks r before the wrap
    var late := wrap + r - i;            // picks r after it
    assert Pick(i, early, n, wrap) == r by {
      ModUnique(i + early, 0, i + early, wrap);
      assert wrap == n * (wrap / n) + w;
      ModUnique(i + early, wrap / n, r, n);
    }
    assert Pick(i, late, n, wrap) == r by {
      assert i + late == wrap * 1 + r;
      ModUnique(i + late, 1, r, wrap);
      ModUnique(r, 0, r, n);
    }
    assert early != late && 1 <= early <= n && 1 <= late <= n;
    assert !PickedOnce(i, n, wrap, r);
  }

  /**
   n draws in a row pick each of n stable members exactly once, except when the index
   wraps among them and the number of members does not divide 2^64.
   */
  lemma RoundRobinExact(i: nat, n: nat)
    requires 0 < n <= WRAP && i < WRAP
    ensures FairRound(i, n, WRAP) <==> i + n < WRAP || i == WRAP - 1 || WRAP % n == 0
  {
    if i + n < WRAP || WRAP % n == 0 {
      forall r | 0 <= r < n ensures PickedOnce(i, n, WRAP, r) {
        CircleMeetsOnce(i, n, WRAP, r);
      }
    } else if i == WRAP - 1 {
      forall r | 0 <= r < n ensures PickedOnce(i, n, WRAP, r) {
        FromTheWrap(n, WRAP, r);
      }
    } else {
      WrapPicksTwice(i, n, WRAP);
    }
  }

  function DrawTimes(g: Group, k: nat): Group {
    if k == 0 then g else Drawn(DrawTimes(g, k - 1))
  }

  lemma OneMore(x: nat, wrap: nat)
    requires 1 < wrap
    ensures (x % wrap + 1) % wrap == (x + 1) % wrap
  {
    var q, a := x / wrap, x % wrap;
    if a + 1 < wrap {
      ModUnique(x + 1, q, a + 1, wrap);
      ModUnique(a + 1, 0, a + 1, wrap);
    } else {
      assert x + 1 == wrap * (q + 1) + 0;
      ModUnique(x + 1, q + 1, 0, wrap);
      ModUnique(a + 1, 1, 0, wrap);
    }
  }

  /** The k-th draw from a stable group picks the member `Pick` says. */
  lemma {:induction false} DrawsPick(g: Group, k: nat)
    requires g.names != [] && g.index < WRAP
    ensures var g' := DrawTimes(g, k);
            && g' == g.(index := (g.index + k) % WRAP)
            && Turn(g') == Some(g.names[Pick(g.index, k, |g.names|, WRAP)])
  {
    if k == 0 {
      ModUnique(g.index, 0, g.index, WRAP);
    } else {
      DrawsPick(g, k - 1);
      OneMore(g.index + k - 1, WRAP);
    }
  }

  // ---- the group as it is ----

  /** What the group shares with everybody else: the routers, and its entry in the registry. */
  class Router {
    var routes: map<Route, Owner>
    var removed: bool

    constructor (routes: map<Route, Owner>)
      ensures this.routes == routes && !removed
    {
      this.routes, removed := routes, false;
    }

    method Add(r: Route) returns (ok: bool)
      modifies this`routes
      ensures ok <==> r !in old(routes)
      ensures routes == if ok then old(routes)[r := Mine] else old(routes)
    {
      if r in routes {
        return false;
      }
      routes := routes[r := Mine];
      return true;
    }
  }

  class HTTPGroup {
    const entry: string
    var name: string
    var key: string
    var route: Route
    var createFuncs: map<string, Fn>
    var pxyNames: seq<string>
    var index: nat
    const router: Router

    ghost function View(): Group
      reads this, router
    {
      Group(entry, name, key, route, createFuncs, pxyNames, index, router.removed, router.routes)
    }

    constructor (entry: string, router: Router)
      requires !router.removed
      ensures this.router == router && View() == Fresh(entry, router.routes)
    {
      this.entry, this.router := entry, router;
      name, key, route := "", "", Route("", "", "");
      createFuncs, pxyNames, index := map[], [], 0;
    }

    method Register(pxy: string, group: string, groupKey: string, r: Route, fn: Fn) returns (err: Error)
      modifies this, router
      ensures (View(), err) == Registered(old(View()), pxy, group, groupKey, r, fn)
    {
      if router.removed || group != entry {
        return Error.Stale;
      }
      if |createFuncs| == 0 {
        var ok := router.Add(r);
        if !ok {
          return RouteConflict;
        }
        name, key, route := group, groupKey, r;
      } else {
        if name != group || route != r {
          return ParamsInvalid;
        }
        if key != groupKey {
          return AuthFailed;
        }
      }
      if pxy in createFuncs {
        return Repeated;
      }
      createFuncs := createFuncs[pxy := fn];
      pxyNames := pxyNames + [pxy];
      return Ok;
    }

    method UnRegister(pxy: string)
      modifies this, router
      ensures View() == Unregistered(old(View()), pxy)
    {
      createFuncs := createFuncs - {pxy};
      Splice(pxy);
      if |createFuncs| == 0 {
        router.routes := router.routes - {route};
        if name == entry {
          router.removed := true;
        }
      }
    }

    /** The loop that takes a name out of pxyNames, in place. */
    method Splice(pxy: string)
      modifies this`pxyNames
      ensures pxyNames == Without(old(pxyNames), pxy)
    {
      for i := 0 to |pxyNames|
        invariant pxyNames == old(pxyNames) && forall j | 0 <= j < i :: pxyNames[j] != pxy
      {
        if pxyNames[i] == pxy {
          WithoutAt(pxyNames, i);
          pxyNames := pxyNames[..i] + pxyNames[i + 1..];
          return;
        }
      }
      WithoutAbsent(pxyNames, pxy);
    }

    /** chooseEndpoint: a member, by turns; an empty name is no endpoint. */
    method ChooseEndpoint() returns (r: Option<string>)
      modifies this`index
      ensures View() == Drawn(old(View()))
      ensures r == if Turn(View()) == Some("") then None else Turn(View())
    {
      index := (index + 1) % WRAP;
      var choice := "";
      if |pxyNames| > 0 {
        choice := pxyNames[index % |pxyNames|];
      }
      if choice == "" {
        return None;
      }
      return Some(choice);
    }

    /** createConn, up to the call of the chosen function. */
    method CreateConn() returns (f: Option<Fn>)
      modifies this`index
      ensures View() == Drawn(old(View()))
      ensures f == if Turn(View()).Some? then Lookup(createFuncs, Turn(View()).value) else None
    {
      index := (index + 1) % WRAP;
      f := None;
      if |pxyNames| > 0 {
        f := Lookup(createFuncs, pxyNames[index % |pxyNames|]);
      }
    }
  }
}

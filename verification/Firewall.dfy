/** The ordered rules of the firewall: compiling, deciding by the first match, and pruning in place. */
module Firewall {
  import opened Options
  import opened Text
  import opened FirewallPorts
  import opened FirewallAddr

  datatype Rule = Rule(id: string, action: string, cidr: string, port: string, expiresAt: int)

  datatype CompiledRule = CompiledRule(
    rule: Rule,
    allow: bool,
    net: Net,
    anyPort: bool,
    ports: seq<PortRange>,
    reason: string)

  predicate Compact(c: CompiledRule) {
    c.reason != "" && (c.net.In? ==> ValidPrefix(c.net.prefix))
  }

  // ---- compiling ----

  function RuleReason(id: string, index: nat): (s: string)
    ensures s != ""
  {
    var t := TrimSpace(id);
    if t != "" then "rule " + t else "rule #" + Itoa(index + 1)
  }

  function CompileRule(r: Rule, index: nat, ps: Parsers): (c: CompiledRule)
    requires ps.Sound()
    ensures Compact(c)
  {
    var any := IsAny(r.port);
    CompiledRule(r, EqualFold(TrimSpace(r.action), "allow"), CompileNet(r.cidr, ps),
                 any, if any then [] else Compiled(Entries(r.port)), RuleReason(r.id, index))
  }

  method CompileRules(rules: seq<Rule>, ps: Parsers) returns (out: seq<CompiledRule>)
    requires ps.Sound()
    ensures |out| == |rules| && forall i | 0 <= i < |rules| :: out[i] == CompileRule(rules[i], i, ps)
  {
    out := [];
    for i := 0 to |rules|
      invariant |out| == i && forall j | 0 <= j < i :: out[j] == CompileRule(rules[j], j, ps)
    {
      var ports, anyPort := CompilePorts(rules[i].port);
      var r := rules[i];
      out := out + [CompiledRule(r, EqualFold(TrimSpace(r.action), "allow"), CompileNet(r.cidr, ps),
                                 anyPort, ports, RuleReason(r.id, i))];
    }
  }

  // ---- matching ----

  predicate Match(c: CompiledRule, ip: Addr, port: int)
    requires Compact(c) && Sized(ip)
  {
    MatchNet(c.net, ip) && (c.anyPort || InRanges(c.ports, port))
  }

  /** The addresses the CIDR text of a rule names, netip reading it, as 128-bit addresses. */
  predicate NamesAddr(cidr: string, ps: Parsers, a: Addr)
    requires ps.Sound() && Sized(a)
  {
    var t := TrimSpace(cidr);
    if t == "" || t == "*" then true
    else if a.NoAddr? then false
    else if '/' in t then ps.prefix(t).Some? && Covers(ps.prefix(t).value, a)
    else ps.addr(t).Some? && Embed(ps.addr(t).value) == Embed(a)
  }

  /** The text of a network too short to be told apart from the IPv4 clients inside it. */
  predicate StraddlesIPv4(cidr: string, ps: Parsers)
    requires ps.Sound()
  {
    var t := TrimSpace(cidr);
    '/' in t && ps.prefix(t).Some? && Straddles(ps.prefix(t).value)
  }

  /** Whom a CIDR text reaches, of those it names: no client with a zone, and no IPv4 client of a short IPv6 network. */
  predicate Reaches(cidr: string, ps: Parsers, a: Addr)
    requires ps.Sound() && Sized(a)
  {
    var t := TrimSpace(cidr);
    NamesAddr(cidr, ps, a) && (t == "" || t == "*" || (!Zoned(a) && !(IsIPv4(a) && StraddlesIPv4(cidr, ps))))
  }

  /** A compiled rule matches exactly the addresses its text reaches, at the ports its text names. */
  lemma RuleMatchesText(r: Rule, index: nat, ps: Parsers, a: Addr, port: int)
    requires ps.Sound() && Sized(a)
    ensures Match(CompileRule(r, index, ps), Unmap(a), port) <==>
            Reaches(r.cidr, ps, a) && (IsAny(r.port) || Names(r.port, port))
  {
    CompiledMatchesText(r.port, port);
    var t := TrimSpace(r.cidr);
    if t != "" && t != "*" && !a.NoAddr? {
      if '/' in t {
        if ps.prefix(t).Some? {
          CompiledNetworkExact(ps.prefix(t).value, a);
        }
      } else if ps.addr(t).Some? {
        HostRuleExact(ps.addr(t).value, a);
      }
    }
  }

  /** A client with a zone in its address is matched by rules for any address only, whatever network they name. */
  lemma ZonedClientIsMissed(r: Rule, index: nat, ps: Parsers, a: Addr, port: int)
    requires ps.Sound() && Sized(a) && Zoned(a)
    ensures Match(CompileRule(r, index, ps), Unmap(a), port) <==>
            (TrimSpace(r.cidr) == "" || TrimSpace(r.cidr) == "*") && (IsAny(r.port) || Names(r.port, port))
  {
    RuleMatchesText(r, index, ps, a, port);
  }

  /** A short IPv6 network around the IPv4-mapped block names every IPv4 client and matches none. */
  lemma StraddlingRuleMissesIPv4(r: Rule, index: nat, ps: Parsers, a: Addr, port: int)
    requires ps.Sound() && Sized(a) && IsIPv4(a) && StraddlesIPv4(r.cidr, ps)
    ensures NamesAddr(r.cidr, ps, a) && !Match(CompileRule(r, index, ps), Unmap(a), port)
  {
    var p := ps.prefix(TrimSpace(r.cidr)).value;
    CompiledNetworkExact(p, a);
    EmbedOfUnmap(a);
    assert Embed(a)[..p.len] == Embed(a)[..96][..p.len];
  }

  /** These two families match less than their text names, and nothing else does. */
  lemma MatchesAllItNames(r: Rule, index: nat, ps: Parsers, a: Addr, port: int)
    requires ps.Sound() && Sized(a)
    ensures (Match(CompileRule(r, index, ps), Unmap(a), port) <==>
             NamesAddr(r.cidr, ps, a) && (IsAny(r.port) || Names(r.port, port)))
            <==>
            !((IsAny(r.port) || Names(r.port, port)) &&
              ((IsIPv4(a) && StraddlesIPv4(r.cidr, ps)) ||
               (Zoned(a) && TrimSpace(r.cidr) != "" && TrimSpace(r.cidr) != "*" && NamesAddr(r.cidr, ps, a))))
  {
    RuleMatchesText(r, index, ps, a, port);
    if IsIPv4(a) && StraddlesIPv4(r.cidr, ps) {
      StraddlingRuleMissesIPv4(r, index, ps, a, port);
    }
  }

  // ---- deciding ----

  predicate Expired(c: CompiledRule, now: int) {
    c.rule.expiresAt != 0 && c.rule.expiresAt <= now
  }

  predicate Applies(c: CompiledRule, now: int, ip: Addr, port: int)
    requires Compact(c) && Sized(ip)
  {
    !Expired(c, now) && Match(c, ip, port)
  }

  predicate AllCompact(rules: seq<CompiledRule>) {
    forall i | 0 <= i < |rules| :: Compact(rules[i])
  }

  datatype Verdict = Verdict(allow: bool, reason: string)

  /** The verdict of the first unexpired rule that matches. */
  function Decide(rules: seq<CompiledRule>, now: int, ip: Addr, port: int): (v: Option<Verdict>)
    requires AllCompact(rules) && Sized(ip)
    ensures v.Some? ==> v.value.reason != ""
  {
    if rules == [] then None
    else if Applies(rules[0], now, ip, port) then Some(Verdict(rules[0].allow, rules[0].reason))
    else Decide(rules[1..], now, ip, port)
  }

  lemma {:induction false} DecideSkips(rules: seq<CompiledRule>, k: nat, now: int, ip: Addr, port: int)
    requires AllCompact(rules) && Sized(ip) && k <= |rules|
    requires forall j | 0 <= j < k :: !Applies(rules[j], now, ip, port)
    ensures Decide(rules, now, ip, port) == Decide(rules[k..], now, ip, port)
  {
    if k > 0 {
      DecideSkips(rules[1..], k - 1, now, ip, port);
      assert rules[1..][k - 1..] == rules[k..];
    }
  }

  /** The first matching rule decides, and without one there is no verdict. */
  lemma FirstMatchDecides(rules: seq<CompiledRule>, i: nat, now: int, ip: Addr, port: int)
    requires AllCompact(rules) && Sized(ip) && i <= |rules|
    requires forall j | 0 <= j < i :: !Applies(rules[j], now, ip, port)
    requires i < |rules| ==> Applies(rules[i], now, ip, port)
    ensures Decide(rules, now, ip, port) == if i < |rules| then Some(Verdict(rules[i].allow, rules[i].reason)) else None
  {
    DecideSkips(rules, i, now, ip, port);
  }

  // ---- pruning ----

  function Pruned(rules: seq<CompiledRule>, now: int): seq<CompiledRule> {
    if rules == [] then []
    else (if Expired(rules[0], now) then [] else [rules[0]]) + Pruned(rules[1..], now)
  }

  lemma {:induction false} PrunedSnoc(rules: seq<CompiledRule>, last: CompiledRule, now: int)
    ensures Pruned(rules + [last], now) == Pruned(rules, now) + if Expired(last, now) then [] else [last]
  {
    if rules == [] {
      assert rules + [last] == [last] && ([last])[1..] == [];
    } else {
      assert (rules + [last])[1..] == rules[1..] + [last];
      PrunedSnoc(rules[1..], last, now);
    }
  }

  /** `at` lists, in increasing order, where the elements of `kept` stand in `rules`. */
  predicate StandAt(at: seq<nat>, kept: seq<CompiledRule>, rules: seq<CompiledRule>) {
    && |at| == |kept|
    && (forall k | 0 <= k < |at| :: at[k] < |rules| && rules[at[k]] == kept[k])
    && (forall k, l | 0 <= k < l < |at| :: at[k] < at[l])
  }

  /** All of the places hold rules that have not expired. */
  predicate Fresh(at: seq<nat>, rules: seq<CompiledRule>, now: int) {
    forall k | 0 <= k < |at| :: at[k] < |rules| && !Expired(rules[at[k]], now)
  }

  lemma Shift(at: seq<nat>, kept: seq<CompiledRule>, rules: seq<CompiledRule>, now: int) returns (up: seq<nat>)
    requires rules != [] && StandAt(at, kept, rules[1..]) && Fresh(at, rules[1..], now)
    ensures StandAt(up, kept, rules) && Fresh(up, rules, now) && forall k | 0 <= k < |up| :: up[k] > 0
    ensures forall i: nat | i > 0 && i - 1 in at :: i in up
  {
    up := seq(|at|, k requires 0 <= k < |at| => at[k] + 1);
    forall i: nat | i > 0 && i - 1 in at ensures i in up {
      var k :| 0 <= k < |at| && at[k] == i - 1;
      assert up[k] == i;
    }
  }

  lemma Prepend(up: seq<nat>, kept: seq<CompiledRule>, rules: seq<CompiledRule>, now: int)
    requires rules != [] && !Expired(rules[0], now)
    requires StandAt(up, kept, rules) && Fresh(up, rules, now) && forall k | 0 <= k < |up| :: up[k] > 0
    ensures StandAt([0] + up, [rules[0]] + kept, rules) && Fresh([0] + up, rules, now)
  {
  }

  /** Pruning keeps the survivors in their order, and every rule that has not expired survives. */
  lemma {:induction false} SurvivorsKeepOrder(rules: seq<CompiledRule>, now: int, i: nat) returns (at: seq<nat>)
    ensures StandAt(at, Pruned(rules, now), rules) && Fresh(at, rules, now)
    ensures i < |rules| && !Expired(rules[i], now) ==> i in at
  {
    if rules == [] {
      at := [];
    } else {
      var rest := SurvivorsKeepOrder(rules[1..], now, if i > 0 then i - 1 else 0);
      var kept := Pruned(rules[1..], now);
      at := Shift(rest, kept, rules, now);
      if !Expired(rules[0], now) {
        Prepend(at, kept, rules, now);
        at := [0] + at;
      }
    }
  }

  /** Pruning at time t is invisible to every later decision, its reason included. */
  lemma {:induction false} PruningIsInvisible(rules: seq<CompiledRule>, t: int, now: int, ip: Addr, port: int)
    requires AllCompact(rules) && Sized(ip) && t <= now
    ensures AllCompact(Pruned(rules, t)) && Decide(Pruned(rules, t), now, ip, port) == Decide(rules, now, ip, port)
  {
    if rules != [] {
      PruningIsInvisible(rules[1..], t, now, ip, port);
      if Expired(rules[0], t) {
        assert Pruned(rules, t) == Pruned(rules[1..], t);
      } else {
        assert Pruned(rules, t)[1..] == Pruned(rules[1..], t);
      }
    }
  }

  /** The answer of the reputation provider, were it asked. */
  datatype Reputation = Reputation(asked: bool, blocked: bool, why: string)

  /** Allow after parseAddr: rules, then reputation, then the default policy. */
  function AllowVerdict(enabled: bool, rules: seq<CompiledRule>, rep: Reputation, defaultAllow: bool,
                        now: int, ip: Addr, port: int): (v: Verdict)
    requires AllCompact(rules) && Sized(ip)
    ensures v.reason != ""
  {
    if !enabled then Verdict(true, "firewall disabled")
    else
      var d := Decide(rules, now, ip, port);
      if d.Some? then d.value
      else if rep.asked && !ip.NoAddr? && rep.blocked then
        Verdict(false, if rep.why != "" then "reputation (" + rep.why + ")" else "reputation")
      else if defaultAllow then Verdict(true, "default allow")
      else Verdict(false, "default deny")
  }

  // ---- from the text of the rules to the decision ----

  /** The rule is in force, its text reaches the client's address and names the port. */
  ghost predicate Concerns(r: Rule, ps: Parsers, now: int, a: Addr, port: int)
    requires ps.Sound() && Sized(a)
  {
    && (r.expiresAt == 0 || now < r.expiresAt)
    && Reaches(r.cidr, ps, a) && (IsAny(r.port) || Names(r.port, port))
  }

  predicate IsCompiled(compiled: seq<CompiledRule>, rules: seq<Rule>, ps: Parsers)
    requires ps.Sound()
  {
    |compiled| == |rules| && forall j | 0 <= j < |rules| :: compiled[j] == CompileRule(rules[j], j, ps)
  }

  /**
   With the firewall on, the first rule in force whose text reaches the client decides, whenever expired rules
   were pruned and whatever the reputation; without one, reputation and then the default do.
   */
  lemma TextDecides(rules: seq<Rule>, compiled: seq<CompiledRule>, ps: Parsers, t: int, i: nat,
                    rep: Reputation, defaultAllow: bool, now: int, a: Addr, port: int)
    requires ps.Sound() && Sized(a) && IsCompiled(compiled, rules, ps) && t <= now
    requires i <= |rules| && (forall j | 0 <= j < i :: !Concerns(rules[j], ps, now, a, port))
    requires i < |rules| ==> Concerns(rules[i], ps, now, a, port)
    ensures AllCompact(Pruned(compiled, t))
    ensures var v := AllowVerdict(true, Pruned(compiled, t), rep, defaultAllow, now, Unmap(a), port);
            if i < |rules| then
              v == Verdict(EqualFold(TrimSpace(rules[i].action), "allow"), RuleReason(rules[i].id, i))
            else if rep.asked && rep.blocked && !a.NoAddr? then
              v == Verdict(false, if rep.why == "" then "reputation" else "reputation (" + rep.why + ")")
            else
              v == if defaultAllow then Verdict(true, "default allow") else Verdict(false, "default deny")
  {
    assert AllCompact(compiled);
    forall j | 0 <= j <= i && j < |rules|
      ensures Applies(compiled[j], now, Unmap(a), port) <==> Concerns(rules[j], ps, now, a, port)
    {
      RuleMatchesText(rules[j], j, ps, a, port);
    }
    FirstMatchDecides(compiled, i, now, Unmap(a), port);
    PruningIsInvisible(compiled, t, now, Unmap(a), port);
  }

  lemma {:induction false} PruningKeepsCompact(rules: seq<CompiledRule>, now: int)
    requires AllCompact(rules)
    ensures AllCompact(Pruned(rules, now))
  {
    if rules != [] {
      PruningKeepsCompact(rules[1..], now);
    }
  }

  lemma {:induction false} NothingExpired(rules: seq<CompiledRule>, now: int)
    ensures |Pruned(rules, now)| <= |rules|
    ensures |Pruned(rules, now)| == |rules| ==> Pruned(rules, now) == rules
  {
    if rules != [] {
      NothingExpired(rules[1..], now);
    }
  }

  /** With the firewall off everything is allowed, whatever the rules. */
  lemma DisabledAllows(rules: seq<CompiledRule>, rep: Reputation, defaultAllow: bool, now: int, ip: Addr, port: int)
    requires AllCompact(rules) && Sized(ip)
    ensures AllowVerdict(false, rules, rep, defaultAllow, now, ip, port) == Verdict(true, "firewall disabled")
  {
  }

  /** The reason names the rule: by its id, or by its position if it has none. */
  lemma ReasonNamesRule(id: string, other: string, i: nat, j: nat)
    ensures TrimSpace(id) != "" ==> RuleReason(id, i) == "rule " + TrimSpace(id)
    ensures TrimSpace(id) == "" && TrimSpace(other) == "" ==> (RuleReason(id, i) == RuleReason(other, j) <==> i == j)
  {
    if TrimSpace(id) == "" && TrimSpace(other) == "" && RuleReason(id, i) == RuleReason(other, j) {
      assert RuleReason(id, i)[6..] == Itoa(i + 1) && RuleReason(other, j)[6..] == Itoa(j + 1);
      DigitsHaveValue(i + 1);
      DigitsHaveValue(j + 1);
    }
  }

  class RuleList {
    var enabled: bool
    var defaultAllow: bool
    var backing: array<CompiledRule> // the array behind the slice f.rules
    var len: nat

    ghost predicate Valid()
      reads this, backing
    {
      len <= backing.Length && AllCompact(backing[..len])
    }

    function Rules(): seq<CompiledRule>
      reads this, backing
      requires Valid()
    {
      backing[..len]
    }

    constructor (enabled: bool, defaultAllow: bool, rules: seq<CompiledRule>)
      requires AllCompact(rules)
      ensures Valid() && Rules() == rules && fresh(backing) && this.enabled == enabled && this.defaultAllow == defaultAllow
    {
      this.enabled, this.defaultAllow := enabled, defaultAllow;
      backing := new CompiledRule[|rules|](i requires 0 <= i < |rules| => rules[i]);
      len := |rules|;
    }

    /** pruneLocked: the survivors are moved to the front of the array they are in. */
    method Prune(now: int) returns (changed: bool)
      requires Valid()
      modifies this`len, backing
      ensures Valid() && backing == old(backing) && Rules() == Pruned(old(Rules()), now)
      ensures changed <==> Rules() != old(Rules())
    {
      changed := false;
      ghost var was := backing[..len];
      var n, k := len, 0;
      for i := 0 to n
        invariant k <= i && backing[..k] == Pruned(was[..i], now) && (changed <==> k < i)
        invariant forall j | i <= j < n :: backing[j] == was[j]
      {
        assert was[..i + 1] == was[..i] + [was[i]];
        PrunedSnoc(was[..i], was[i], now);
        var r := backing[i];
        if r.rule.expiresAt != 0 && r.rule.expiresAt <= now {
          changed := true;
        } else {
          backing[k] := r;
          k := k + 1;
        }
      }
      assert was[..n] == was;
      len := k;
      PruningKeepsCompact(was, now);
      NothingExpired(was, now);
    }

    /** Allow, the client address already parsed and the clock already read. */
    method Allow(ip: Addr, port: int, now: int, rep: Reputation) returns (v: Verdict)
      requires Valid() && Sized(ip)
      ensures v == AllowVerdict(enabled, Rules(), rep, defaultAllow, now, ip, port)
    {
      if !enabled {
        return Verdict(true, "firewall disabled");
      }
      for i := 0 to len
        invariant forall j | 0 <= j < i :: !Applies(Rules()[j], now, ip, port)
      {
        var r := backing[i];
        assert r == Rules()[i];
        if r.rule.expiresAt != 0 && r.rule.expiresAt <= now {
          continue;
        }
        if Match(r, ip, port) {
          FirstMatchDecides(Rules(), i, now, ip, port);
          return Verdict(r.allow, r.reason);
        }
      }
      FirstMatchDecides(Rules(), len, now, ip, port);
      if rep.asked && !ip.NoAddr? && rep.blocked {
        if rep.why != "" {
          return Verdict(false, "reputation (" + rep.why + ")");
        }
        return Verdict(false, "reputation");
      }
      if defaultAllow {
        return Verdict(true, "default allow");
      }
      return Verdict(false, "default deny");
    }
  }
}

/**
 Address matching of firewall rules over mixed IPv4 and IPv6. An address is its bits,
 most significant first. What net/netip parses is taken as given; what the firewall
 makes of it is compared with plain 128-bit prefix containment, IPv4 addresses being
 read as the IPv4-mapped addresses of section 2.5.5.2 of RFC 4291.
 */
module FirewallAddr {
  import opened Options
  import opened Text

  type Bits = seq<bool>

  datatype Addr = NoAddr | V4(bits: Bits) | V6(bits: Bits, zone: string)

  /** A network as netip.Prefix holds it: no zone, and len leading bits. */
  datatype Prefix = Prefix(addr: Addr, len: nat)

  function Repeat(b: bool, n: nat): (r: Bits)
    ensures |r| == n
  {
    seq(n, _ => b)
  }

  /** ::ffff:0:0/96. */
  const MAPPED: Bits := Repeat(false, 80) + Repeat(true, 16)

  predicate Sized(a: Addr) {
    match a
    case NoAddr => true
    case V4(b) => |b| == 32
    case V6(b, _) => |b| == 128
  }

  function BitLen(a: Addr): nat {
    match a
    case NoAddr => 0
    case V4(_) => 32
    case V6(_, _) => 128
  }

  /** What netip.ParsePrefix returns. */
  predicate ValidPrefix(p: Prefix) {
    Sized(p.addr) && !p.addr.NoAddr? && p.len <= BitLen(p.addr) && (p.addr.V6? ==> p.addr.zone == "")
  }

  predicate Is4In6(a: Addr)
    requires Sized(a)
  {
    a.V6? && a.bits[..96] == MAPPED
  }

  /** netip.Addr.Unmap. */
  function Unmap(a: Addr): (u: Addr)
    requires Sized(a)
    ensures Sized(u) && !Is4In6(u)
  {
    if Is4In6(a) then V4(a.bits[96..]) else a
  }

  /** netip.PrefixFrom followed by Masked. */
  function MaskedPrefix(a: Addr, len: nat): (p: Prefix)
    requires Sized(a) && !a.NoAddr? && len <= BitLen(a)
    ensures ValidPrefix(p)
  {
    var bits := a.bits[..len] + Repeat(false, BitLen(a) - len);
    Prefix(if a.V4? then V4(bits) else V6(bits, ""), len)
  }

  /** netip.Prefix.Contains. */
  predicate Contains(p: Prefix, ip: Addr)
    requires ValidPrefix(p) && Sized(ip)
  {
    && !(ip.V6? && ip.zone != "")
    && BitLen(ip) == BitLen(p.addr)
    && ip.bits[..p.len] == p.addr.bits[..p.len]
  }

  // ---- what a rule holds ----

  datatype Net = AnyNet | NeverNet | In(prefix: Prefix)

  /** The prefix branch of compileRule: a network of IPv4-mapped addresses is held as the IPv4 network it names. */
  function CompilePrefix(p: Prefix): (c: Prefix)
    requires ValidPrefix(p)
    ensures ValidPrefix(c)
  {
    if Is4In6(p.addr) && p.len >= 96 then MaskedPrefix(Unmap(p.addr), p.len - 96)
    else MaskedPrefix(p.addr, p.len)
  }

  /** The bare address branch of compileRule. */
  function CompileHost(a: Addr): (c: Prefix)
    requires Sized(a) && !a.NoAddr?
    ensures ValidPrefix(c)
  {
    MaskedPrefix(Unmap(a), BitLen(Unmap(a)))
  }

  /** netip's two parsers, and what is known of their results. */
  datatype Parsers = Parsers(prefix: string -> Option<Prefix>, addr: string -> Option<Addr>) {
    ghost predicate Sound() {
      && (forall s :: prefix(s).Some? ==> ValidPrefix(prefix(s).value))
      && (forall s :: addr(s).Some? ==> Sized(addr(s).value) && !addr(s).value.NoAddr?)
    }
  }

  /** The CIDR switch of compileRule. */
  function CompileNet(cidr: string, ps: Parsers): (n: Net)
    requires ps.Sound()
    ensures n.In? ==> ValidPrefix(n.prefix)
  {
    var t := TrimSpace(cidr);
    if t == "" || t == "*" then AnyNet
    else if '/' in t then
      var p := ps.prefix(t);
      if p.None? then NeverNet else In(CompilePrefix(p.value))
    else
      var a := ps.addr(t);
      if a.None? then NeverNet else In(CompileHost(a.value))
  }

  predicate MatchNet(n: Net, ip: Addr)
    requires (n.In? ==> ValidPrefix(n.prefix)) && Sized(ip)
  {
    match n
    case NeverNet => false
    case AnyNet => true
    case In(p) => !ip.NoAddr? && Contains(p, ip)
  }

  // ---- the reference: containment among 128-bit addresses ----

  function Embed(a: Addr): (b: Bits)
    requires Sized(a) && !a.NoAddr?
    ensures |b| == 128
  {
    if a.V4? then MAPPED + a.bits else a.bits
  }

  function EmbedLen(p: Prefix): nat {
    if p.addr.V4? then 96 + p.len else p.len
  }

  predicate Covers(p: Prefix, a: Addr)
    requires ValidPrefix(p) && Sized(a) && !a.NoAddr?
  {
    Embed(p.addr)[..EmbedLen(p)] == Embed(a)[..EmbedLen(p)]
  }

  predicate IsIPv4(a: Addr)
    requires Sized(a)
  {
    a.V4? || Is4In6(a)
  }

  /** A zone that Unmap leaves on the address: prefixes contain no such address. */
  predicate Zoned(a: Addr)
    requires Sized(a)
  {
    a.V6? && a.zone != "" && !Is4In6(a)
  }

  /** A network of fewer than 96 bits around the IPv4-mapped block. */
  predicate Straddles(p: Prefix)
    requires ValidPrefix(p)
  {
    p.addr.V6? && p.len < 96 && MAPPED[..p.len] == p.addr.bits[..p.len]
  }

  lemma MaskKeepsPrefix(a: Addr, len: nat, ip: Addr)
    requires Sized(a) && !a.NoAddr? && len <= BitLen(a) && Sized(ip)
    ensures Contains(MaskedPrefix(a, len), ip) <==>
            !(ip.V6? && ip.zone != "") && BitLen(ip) == BitLen(a) && ip.bits[..len] == a.bits[..len]
  {
    assert MaskedPrefix(a, len).addr.bits[..len] == a.bits[..len];
  }

  /** Prefixes of what follows a common head. */
  lemma TailsDecide(head: Bits, x: Bits, y: Bits, n: nat)
    requires n <= |x| && n <= |y|
    ensures (head + x)[..|head| + n] == (head + y)[..|head| + n] <==> x[..n] == y[..n]
  {
    assert (head + x)[..|head| + n] == head + x[..n];
    assert (head + y)[..|head| + n] == head + y[..n];
    if head + x[..n] == head + y[..n] {
      assert (head + x[..n])[|head|..] == x[..n];
      assert (head + y[..n])[|head|..] == y[..n];
    }
  }

  lemma EmbedOfUnmap(a: Addr)
    requires Sized(a) && !a.NoAddr?
    ensures Embed(Unmap(a)) == Embed(a) && (IsIPv4(a) <==> Unmap(a).V4?) && (IsIPv4(a) <==> Embed(a)[..96] == MAPPED)
  {
    if Is4In6(a) {
      assert a.bits == a.bits[..96] + a.bits[96..];
    }
    if a.V4? {
      assert (MAPPED + a.bits)[..96] == MAPPED;
    }
  }

  /** Prefixes that differ already in their first 96 bits are different. */
  lemma ShorterPrefix(x: Bits, y: Bits, n: nat)
    requires |x| == |y| == 128 && 96 <= n <= 128 && x[..n] == y[..n]
    ensures x[..96] == y[..96]
  {
    assert x[..96] == x[..n][..96] && y[..96] == y[..n][..96];
  }

  /** A network that names IPv4 addresses contains exactly the clients that the 128-bit network contains. */
  lemma MappedNetworkExact(p: Prefix, a: Addr)
    requires ValidPrefix(p) && Sized(a) && !a.NoAddr?
    requires p.addr.V4? || (Is4In6(p.addr) && p.len >= 96)
    ensures Contains(CompilePrefix(p), Unmap(a)) <==> Covers(p, a)
  {
    EmbedOfUnmap(a);
    EmbedOfUnmap(p.addr);
    var q, u, n := Unmap(p.addr), Unmap(a), EmbedLen(p) - 96;
    MaskKeepsPrefix(q, n, u);
    if u.V4? {
      TailsDecide(MAPPED, q.bits, u.bits, n);
    } else if Covers(p, a) {
      ShorterPrefix(Embed(p.addr), Embed(a), EmbedLen(p));
    }
  }

  /**
   For every network and every client address, the compiled rule contains the address
   exactly when the 128-bit network does, except for the clients of a network with a
   zone in their address and the IPv4 clients of an IPv6 network of fewer than 96 bits.
   */
  lemma CompiledNetworkExact(p: Prefix, a: Addr)
    requires ValidPrefix(p) && Sized(a) && !a.NoAddr?
    ensures Contains(CompilePrefix(p), Unmap(a)) <==> Covers(p, a) && !Zoned(a) && !(IsIPv4(a) && Straddles(p))
    ensures (Contains(CompilePrefix(p), Unmap(a)) <==> Covers(p, a)) <==>
            !(Zoned(a) && Covers(p, a)) && !(IsIPv4(a) && Straddles(p))
  {
    if p.addr.V4? || (Is4In6(p.addr) && p.len >= 96) {
      MappedNetworkExact(p, a);
    } else {
      EmbedOfUnmap(a);
      EmbedOfUnmap(p.addr);
      MaskKeepsPrefix(p.addr, p.len, Unmap(a));
      if IsIPv4(a) {
        if p.len < 96 {
          assert Embed(a)[..p.len] == Embed(a)[..96][..p.len];
        } else if Covers(p, a) {
          ShorterPrefix(Embed(p.addr), Embed(a), p.len);
        }
      }
    }
  }

  /** A rule that names one address matches that address and no other, however it is written, but no client with a zone. */
  lemma HostRuleExact(h: Addr, a: Addr)
    requires Sized(h) && !h.NoAddr? && Sized(a) && !a.NoAddr?
    ensures Contains(CompileHost(h), Unmap(a)) <==> Embed(h) == Embed(a) && !Zoned(a)
  {
    EmbedOfUnmap(h);
    EmbedOfUnmap(a);
    var q, u := Unmap(h), Unmap(a);
    MaskKeepsPrefix(q, BitLen(q), u);
    assert q.bits[..BitLen(q)] == q.bits;
    if u.V4? && q.V4? {
      TailsDecide(MAPPED, q.bits, u.bits, 32);
      assert u.bits[..32] == u.bits && Embed(q)[..128] == Embed(q) && Embed(u)[..128] == Embed(u);
    } else if u.V6? && q.V6? {
      assert u.bits[..128] == u.bits;
    }
  }
}

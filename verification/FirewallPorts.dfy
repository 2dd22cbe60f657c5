/**
 Port specs of firewall rules: "6000", "6000-6010", "80,443,7000-7010", or any port.
 The compiled ranges are related to a grammar of the text that is stated without
 reference to the parser.
 */
module FirewallPorts {
  import opened Options
  import opened Text
  import opened Numerals

  datatype PortRange = PortRange(lo: int, hi: int)

  // ---- the text, by its grammar ----

  ghost predicate IsRangeText(e: string, a: string, b: string, r: PortRange) {
    e == a + "-" + b && '-' !in a && Numeral(a, r.lo) && Numeral(b, r.hi)
  }

  /** `e` is one port, or a range whose bounds are separated by the first dash. */
  ghost predicate Entry(e: string, r: PortRange) {
    && 0 <= r.lo <= r.hi <= 65535
    && if '-' in e then exists a, b :: IsRangeText(e, a, b, r)
       else r.lo == r.hi && Numeral(e, r.lo)
  }

  function Entries(spec: string): seq<string> {
    Split(TrimSpace(spec), ',')
  }

  /** A spec names the ports its entries name. */
  ghost predicate Names(spec: string, port: int) {
    exists i, r | 0 <= i < |Entries(spec)| :: Entry(Entries(spec)[i], r) && r.lo <= port <= r.hi
  }

  function Fold(c: char): char {
    if 'A' <= c <= 'Z' then (c as int + 32) as char else c
  }

  /** strings.EqualFold against an ASCII word none of whose letters folds outside ASCII. */
  predicate EqualFold(s: string, word: string) {
    |s| == |word| && forall i | 0 <= i < |s| :: Fold(s[i]) == word[i]
  }

  predicate IsAny(spec: string) {
    var t := TrimSpace(spec);
    t == "" || t == "*" || EqualFold(t, "all")
  }

  /** A spec without padding that means any port: nothing, a star, or "all" in any case. */
  lemma AnyPortTexts(t: string)
    requires Tight(t)
    ensures IsAny(t) <==> t == "" || t == "*" || (|t| == 3 && t[0] in "aA" && t[1] in "lL" && t[2] in "lL")
  {
    TrimTight(t);
    assert "all"[0] == 'a' && "all"[1] == 'l' && "all"[2] == 'l';
  }

  // ---- the parser ----

  function ParsePort(s: string): Option<int> {
    var n := ParseInt(TrimSpace(s));
    if n.Some? && 0 <= n.value <= 65535 then n else None
  }

  function ParsePortRange(part: string): Option<PortRange> {
    var t := TrimSpace(part);
    if t == "" then None
    else
      var (before, after) := Cut(t, '-');
      var lo := ParsePort(before);
      if lo.None? then None
      else if after.None? then Some(PortRange(lo.value, lo.value))
      else
        var hi := ParsePort(after.value);
        if hi.None? || hi.value < lo.value then None else Some(PortRange(lo.value, hi.value))
  }

  lemma TrimIgnoresPadding(pre: string, s: string, post: string)
    requires AllSpace(pre) && AllSpace(post)
    ensures TrimSpace(pre + s + post) == TrimSpace(s)
  {
    var p, q := TrimSplits(s);
    assert pre + s + post == (pre + p) + TrimSpace(s) + (q + post);
    TrimOf(pre + p, TrimSpace(s), q + post);
  }

  lemma FirstDash(e: string, a: string, b: string)
    requires e == a + "-" + b && '-' !in a
    ensures Cut(e, '-') == (a, Some(b))
  {
    assert e == a + ['-'] + b;
    SplitAt(a, '-', b);
    assert Split(e, '-')[1..] == Split(b, '-');
    JoinSplit(b, '-');
  }

  /** Padding does not reach the dash. */
  lemma AroundDash(pre: string, t: string, post: string, a: string, b: string) returns (a': string, b': string)
    requires pre + t + post == a + "-" + b && AllSpace(pre) && AllSpace(post)
    ensures t == a' + "-" + b' && a == pre + a' + [] && b == [] + b' + post
  {
    var e := a + "-" + b;
    assert e[|a|] == '-' && !IsSpace('-');
    assert |pre| <= |a| && |post| <= |b| by {
      assert forall i | 0 <= i < |pre| :: e[i] == pre[i];
      assert forall i | 0 <= i < |post| :: e[|e| - |post| + i] == post[i];
    }
    a', b' := a[|pre|..], b[..|b| - |post|];
    assert t == e[|pre|..|e| - |post|];
    assert pre == e[..|pre|] == a[..|pre|];
    assert post == e[|e| - |post|..] == b[|b| - |post|..];
  }

  /** The dash cuts padding and all, and the numbers around it read the same. */
  lemma CutOfTrimmed(e: string, a: string, b: string)
    requires e == a + "-" + b && '-' !in a
    ensures var (before, after) := Cut(TrimSpace(e), '-');
            after.Some? && TrimSpace(before) == TrimSpace(a) && TrimSpace(after.value) == TrimSpace(b)
  {
    var pre, post := TrimSplits(e);
    var t := TrimSpace(e);
    var a', b' := AroundDash(pre, t, post, a, b);
    TrimIgnoresPadding(pre, a', []);
    TrimIgnoresPadding([], b', post);
    FirstDash(t, a', b');
  }

  lemma DashedParses(e: string, a: string, b: string, r: PortRange)
    requires e == a + "-" + b && '-' !in a
    ensures ParsePortRange(e) == Some(r) <==> 0 <= r.lo <= r.hi <= 65535 && Numeral(a, r.lo) && Numeral(b, r.hi)
  {
    CutOfTrimmed(e, a, b);
    assert TrimSpace(e) != "" by {
      assert Cut("", '-') == ("", None);
    }
    ParseIntReadsNumerals(a, r.lo);
    ParseIntReadsNumerals(b, r.hi);
  }

  /** A part parses as a range exactly when the grammar gives it that reading. */
  lemma ParsesExactlyEntries(e: string, r: PortRange)
    ensures ParsePortRange(e) == Some(r) <==> Entry(e, r)
  {
    JoinSplit(e, '-');
    if '-' in e {
      var a, b := Split(e, '-')[0], Join(Split(e, '-')[1..], '-');
      assert e == a + "-" + b;
      DashedParses(e, a, b, r);
      if Entry(e, r) {
        var x, y :| IsRangeText(e, x, y, r);
        FirstDash(e, x, y);
        FirstDash(e, a, b);
      }
      assert IsRangeText(e, a, b, r) <==> Numeral(a, r.lo) && Numeral(b, r.hi);
    } else {
      var pre, post := TrimSplits(e);
      var t := TrimSpace(e);
      SplitPlain(t, '-');
      TrimTight(t);
      ParseIntReadsNumerals(e, r.lo);
    }
  }

  // ---- compiling, validating and matching ----

  /** What a parser makes of the parts it accepts, in order. */
  function Gather<T>(parse: string -> Option<T>, parts: seq<string>): seq<T> {
    if parts == [] then []
    else
      var r := parse(parts[0]);
      (if r.Some? then [r.value] else []) + Gather(parse, parts[1..])
  }

  lemma {:induction false} GatherSnoc<T>(parse: string -> Option<T>, parts: seq<string>, last: string)
    ensures var r := parse(last);
            Gather(parse, parts + [last]) == Gather(parse, parts) + if r.Some? then [r.value] else []
  {
    var all := parts + [last];
    if parts == [] {
      assert all[1..] == [];
    } else {
      var first := if parse(parts[0]).Some? then [parse(parts[0]).value] else [];
      var tail := if parse(last).Some? then [parse(last).value] else [];
      assert all[0] == parts[0] && all[1..] == parts[1..] + [last];
      GatherSnoc(parse, parts[1..], last);
      assert first + (Gather(parse, parts[1..]) + tail) == first + Gather(parse, parts[1..]) + tail;
    }
  }

  lemma {:induction false} GatheredWasParsed<T>(parse: string -> Option<T>, parts: seq<string>, i: nat) returns (j: nat)
    requires i < |Gather(parse, parts)|
    ensures j < |parts| && parse(parts[j]) == Some(Gather(parse, parts)[i])
  {
    var r := parse(parts[0]);
    if r.Some? && i == 0 {
      j := 0;
    } else {
      j := GatheredWasParsed(parse, parts[1..], if r.Some? then i - 1 else i);
      j := j + 1;
    }
  }

  lemma {:induction false} ParsedIsGathered<T>(parse: string -> Option<T>, parts: seq<string>, j: nat) returns (i: nat)
    requires j < |parts| && parse(parts[j]).Some?
    ensures i < |Gather(parse, parts)| && Gather(parse, parts)[i] == parse(parts[j]).value
  {
    if j == 0 {
      i := 0;
    } else {
      i := ParsedIsGathered(parse, parts[1..], j - 1);
      i := if parse(parts[0]).Some? then i + 1 else i;
    }
  }

  lemma {:induction false} AllGathered<T>(parse: string -> Option<T>, parts: seq<string>, i: nat)
    requires forall j | 0 <= j < |parts| :: parse(parts[j]).Some?
    ensures |Gather(parse, parts)| == |parts| && (i < |parts| ==> Gather(parse, parts)[i] == parse(parts[i]).value)
  {
    if parts != [] {
      AllGathered(parse, parts[1..], if i > 0 then i - 1 else 0);
    }
  }

  function Compiled(parts: seq<string>): seq<PortRange> {
    Gather(ParsePortRange, parts)
  }

  /** compilePorts: a malformed entry is dropped rather than widened. */
  method CompilePorts(spec: string) returns (ranges: seq<PortRange>, anyPort: bool)
    ensures anyPort == IsAny(spec) && ranges == if anyPort then [] else Compiled(Entries(spec))
  {
    var t := TrimSpace(spec);
    if t == "" || t == "*" || EqualFold(t, "all") {
      return [], true;
    }
    var parts := Split(t, ',');
    ranges, anyPort := [], false;
    for i := 0 to |parts|
      invariant ranges == Compiled(parts[..i])
    {
      assert parts[..i + 1] == parts[..i] + [parts[i]];
      GatherSnoc(ParsePortRange, parts[..i], parts[i]);
      var r := ParsePortRange(parts[i]);
      if r.Some? {
        ranges := ranges + [r.value];
      }
    }
    assert parts[..|parts|] == parts;
  }

  ghost predicate WellFormed(e: string) {
    exists r :: Entry(e, r)
  }

  ghost predicate FirstBad(parts: seq<string>, i: int) {
    0 <= i < |parts| && !WellFormed(parts[i]) && forall j | 0 <= j < i :: WellFormed(parts[j])
  }

  lemma ParsesIffWellFormed(e: string)
    ensures ParsePortRange(e).Some? <==> WellFormed(e)
  {
    if ParsePortRange(e).Some? {
      ParsesExactlyEntries(e, ParsePortRange(e).value);
    }
    if WellFormed(e) {
      var r :| Entry(e, r);
      ParsesExactlyEntries(e, r);
    }
  }

  /** The position of the first part a parser does not accept, or their number. */
  method FindBad<T>(parse: string -> Option<T>, parts: seq<string>) returns (i: nat)
    ensures i <= |parts| && (i < |parts| ==> parse(parts[i]).None?) && forall j | 0 <= j < i :: parse(parts[j]).Some?
  {
    for k := 0 to |parts|
      invariant forall j | 0 <= j < k :: parse(parts[j]).Some?
    {
      if parse(parts[k]).None? {
        return k;
      }
    }
    return |parts|;
  }

  lemma UnparsedIsBad(parts: seq<string>, i: nat)
    requires i <= |parts| && (i < |parts| ==> ParsePortRange(parts[i]).None?)
    requires forall j | 0 <= j < i :: ParsePortRange(parts[j]).Some?
    ensures i < |parts| ==> FirstBad(parts, i)
    ensures i == |parts| ==> forall j | 0 <= j < |parts| :: WellFormed(parts[j])
  {
    forall j | 0 <= j < |parts| ensures ParsePortRange(parts[j]).Some? <==> WellFormed(parts[j]) {
      ParsesIffWellFormed(parts[j]);
    }
  }

  /** ParsePortSpec: accepted exactly when every entry is well formed; the error is the first that is not. */
  method ParsePortSpec(spec: string) returns (bad: Option<string>)
    ensures bad.None? ==> IsAny(spec) || forall i | 0 <= i < |Entries(spec)| :: WellFormed(Entries(spec)[i])
    ensures bad.Some? ==> !IsAny(spec) &&
                          exists i :: FirstBad(Entries(spec), i) && bad.value == TrimSpace(Entries(spec)[i])
  {
    var t := TrimSpace(spec);
    if t == "" || t == "*" || EqualFold(t, "all") {
      return None;
    }
    var parts := Split(t, ',');
    var i := FindBad(ParsePortRange, parts);
    UnparsedIsBad(parts, i);
    if i < |parts| {
      assert FirstBad(Entries(spec), i);
      return Some(TrimSpace(parts[i]));
    }
    return None;
  }

  predicate InRanges(ranges: seq<PortRange>, port: int) {
    exists i | 0 <= i < |ranges| :: ranges[i].lo <= port <= ranges[i].hi
  }

  method MatchRanges(ranges: seq<PortRange>, port: int) returns (hit: bool)
    ensures hit == InRanges(ranges, port)
  {
    for i := 0 to |ranges|
      invariant forall j | 0 <= j < i :: !(ranges[j].lo <= port <= ranges[j].hi)
    {
      if port >= ranges[i].lo && port <= ranges[i].hi {
        return true;
      }
    }
    return false;
  }

  ghost predicate EntryCovers(e: string, port: int) {
    exists r :: Entry(e, r) && r.lo <= port <= r.hi
  }

  lemma HeadCovers(e: string, port: int)
    ensures var r := ParsePortRange(e);
            EntryCovers(e, port) <==> r.Some? && r.value.lo <= port <= r.value.hi
  {
    var p := ParsePortRange(e);
    if p.Some? {
      ParsesExactlyEntries(e, p.value);
    }
    if EntryCovers(e, port) {
      var r :| Entry(e, r) && r.lo <= port <= r.hi;
      ParsesExactlyEntries(e, r);
    }
  }

  lemma CompiledCovers(parts: seq<string>, port: int)
    ensures InRanges(Compiled(parts), port) <==> exists i | 0 <= i < |parts| :: EntryCovers(parts[i], port)
  {
    var ranges := Compiled(parts);
    if InRanges(ranges, port) {
      var i :| 0 <= i < |ranges| && ranges[i].lo <= port <= ranges[i].hi;
      var j := GatheredWasParsed(ParsePortRange, parts, i);
      HeadCovers(parts[j], port);
    }
    if j :| 0 <= j < |parts| && EntryCovers(parts[j], port) {
      HeadCovers(parts[j], port);
      var i := ParsedIsGathered(ParsePortRange, parts, j);
      assert ranges[i].lo <= port <= ranges[i].hi;
    }
  }

  /** Whatever the spec, its compiled form matches the ports its well-formed entries name and no others. */
  lemma CompiledMatchesText(spec: string, port: int)
    ensures InRanges(Compiled(Entries(spec)), port) <==> Names(spec, port)
  {
    var parts := Entries(spec);
    CompiledCovers(parts, port);
    if Names(spec, port) {
      var i, r :| 0 <= i < |parts| && Entry(parts[i], r) && r.lo <= port <= r.hi;
      assert EntryCovers(parts[i], port);
    }
  }

  /** Every compiled range is a non-empty range of port numbers. */
  lemma CompiledInBounds(parts: seq<string>, i: nat)
    requires i < |Compiled(parts)|
    ensures 0 <= Compiled(parts)[i].lo <= Compiled(parts)[i].hi <= 65535
  {
    var j := GatheredWasParsed(ParsePortRange, parts, i);
    ParsesExactlyEntries(parts[j], Compiled(parts)[i]);
  }

  /** A spec that validates loses no entry: there is one range for each, in order. */
  lemma ValidatedDropsNothing(parts: seq<string>, i: nat)
    requires forall j | 0 <= j < |parts| :: WellFormed(parts[j])
    ensures |Compiled(parts)| == |parts| && (i < |parts| ==> Entry(parts[i], Compiled(parts)[i]))
  {
    forall j | 0 <= j < |parts| ensures ParsePortRange(parts[j]).Some? {
      ParsesIffWellFormed(parts[j]);
    }
    AllGathered(ParsePortRange, parts, i);
    if i < |parts| {
      ParsesExactlyEntries(parts[i], Compiled(parts)[i]);
    }
  }
}

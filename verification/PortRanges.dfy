/** The allowed port ranges and their text form, "1000-2000,3000,4000-5000". */
module PortRanges {
  import opened Options
  import opened Text
  import opened Numerals

  datatype PortsRange = PortsRange(start: int, end: int, single: int)

  /** The fields are 64-bit ints. */
  predicate Fits(r: PortsRange) {
    && INT64_MIN <= r.start <= INT64_MAX && INT64_MIN <= r.end <= INT64_MAX
    && INT64_MIN <= r.single <= INT64_MAX
  }

  /** One port and nothing else, or a range with no port of its own. */
  predicate WellFormed(r: PortsRange) {
    || (r.single > 0 && r.start == 0 && r.end == 0)
    || (r.single == 0 && 0 <= r.start <= r.end)
  }

  predicate InRange(r: PortsRange, port: int) {
    if r.single > 0 then port == r.single else r.start <= port <= r.end
  }

  /** The ports a list denotes. */
  predicate Denotes(ranges: seq<PortsRange>, port: int) {
    exists i | 0 <= i < |ranges| :: InRange(ranges[i], port)
  }

  // ---- printing ----

  function PrintOne(r: PortsRange): string {
    if r.single > 0 then Itoa(r.single) else Itoa(r.start) + "-" + Itoa(r.end)
  }

  function PrintAll(ranges: seq<PortsRange>): seq<string> {
    seq(|ranges|, i requires 0 <= i < |ranges| => PrintOne(ranges[i]))
  }

  function Print(ranges: seq<PortsRange>): string {
    Join(PrintAll(ranges), ',')
  }

  /** PortsRangeSlice.String. */
  method String(ranges: seq<PortsRange>) returns (s: string)
    ensures s == Print(ranges)
  {
    assert PrintAll(ranges)[..|ranges|] == PrintAll(ranges);
    if |ranges| == 0 {
      return "";
    }
    var strs: seq<string> := [];
    for i := 0 to |ranges|
      invariant strs == PrintAll(ranges)[..i]
    {
      var v := ranges[i];
      if v.single > 0 {
        strs := strs + [Itoa(v.single)];
      } else {
        strs := strs + [Itoa(v.start) + "-" + Itoa(v.end)];
      }
    }
    s := Join(strs, ',');
  }

  // ---- parsing ----

  function ParseOne(s: string): Option<PortsRange> {
    var nums := Split(s, '-');
    if |nums| == 1 then
      var n := ParseInt(TrimSpace(nums[0]));
      if n.None? then None else Some(PortsRange(0, 0, n.value))
    else if |nums| == 2 then
      var lo, hi := ParseInt(TrimSpace(nums[0])), ParseInt(TrimSpace(nums[1]));
      if lo.None? || hi.None? || hi.value < lo.value then None else Some(PortsRange(lo.value, hi.value, 0))
    else None
  }

  function ParseAll(parts: seq<string>): Option<seq<PortsRange>> {
    if parts == [] then Some([])
    else
      var first, rest := ParseOne(parts[0]), ParseAll(parts[1..]);
      if first.None? || rest.None? then None else Some([first.value] + rest.value)
  }

  function Parse(s: string): Option<seq<PortsRange>> {
    ParseAll(Split(TrimSpace(s), ','))
  }

  lemma {:induction false} ParseAllSnoc(parts: seq<string>, last: string)
    ensures var r, x := ParseAll(parts), ParseOne(last);
            ParseAll(parts + [last]) == if r.None? || x.None? then None else Some(r.value + [x.value])
  {
    if parts == [] {
      assert parts + [last] == [last] && ([last])[1..] == [];
      var x := ParseOne(last);
      assert x.Some? ==> [x.value] + [] == [] + [x.value];
    } else {
      assert (parts + [last])[1..] == parts[1..] + [last];
      ParseAllSnoc(parts[1..], last);
      var r, x := ParseAll(parts), ParseOne(last);
      if r.Some? && x.Some? {
        assert r.value + [x.value] == [r.value[0]] + (r.value[1..] + [x.value]);
      }
    }
  }

  lemma {:induction false} ParseAllFails(parts: seq<string>, i: nat)
    requires i < |parts| && ParseOne(parts[i]).None?
    ensures ParseAll(parts).None?
  {
    if i > 0 {
      ParseAllFails(parts[1..], i - 1);
    }
  }

  /** NewPortsRangeSliceFromString: the first bad entry ends it. */
  method NewPortsRangeSliceFromString(str: string) returns (r: Option<seq<PortsRange>>)
    ensures r == Parse(str)
  {
    var parts := Split(TrimSpace(str), ',');
    var out: seq<PortsRange> := [];
    for i := 0 to |parts|
      invariant ParseAll(parts[..i]) == Some(out)
    {
      assert parts[..i + 1] == parts[..i] + [parts[i]];
      ParseAllSnoc(parts[..i], parts[i]);
      var nums := Split(parts[i], '-');
      if |nums| == 1 {
        var n := ParseInt(TrimSpace(nums[0]));
        if n.None? {
          ParseAllFails(parts, i);
          return None;
        }
        out := out + [PortsRange(0, 0, n.value)];
      } else if |nums| == 2 {
        var lo := ParseInt(TrimSpace(nums[0]));
        if lo.None? {
          ParseAllFails(parts, i);
          return None;
        }
        var hi := ParseInt(TrimSpace(nums[1]));
        if hi.None? || hi.value < lo.value {
          ParseAllFails(parts, i);
          return None;
        }
        out := out + [PortsRange(lo.value, hi.value, 0)];
      } else {
        ParseAllFails(parts, i);
        return None;
      }
    }
    assert parts[..|parts|] == parts;
    r := Some(out);
  }

  // ---- what is parsed, by a grammar of the text ----

  lemma HeadAndTail(first: Option<PortsRange>, others: Option<seq<PortsRange>>, r0: PortsRange, rest: seq<PortsRange>)
    ensures first.Some? && others.Some? ==>
              ([first.value] + others.value == [r0] + rest <==> first.value == r0 && others.value == rest)
  {
    if first.Some? && others.Some? && [first.value] + others.value == [r0] + rest {
      assert ([first.value] + others.value)[0] == ([r0] + rest)[0];
      assert ([first.value] + others.value)[1..] == others.value && ([r0] + rest)[1..] == rest;
    }
  }

  ghost predicate IsBounds(s: string, a: string, b: string, r: PortsRange) {
    s == a + "-" + b && '-' !in a && '-' !in b && Numeral(a, r.start) && Numeral(b, r.end)
  }

  /** One number, or two separated by the only dash of which the second is not the smaller. */
  ghost predicate RangeText(s: string, r: PortsRange) {
    if '-' in s then r.single == 0 && r.start <= r.end && exists a, b :: IsBounds(s, a, b, r)
    else r.start == 0 && r.end == 0 && Numeral(s, r.single)
  }

  lemma BoundsSplit(s: string, a: string, b: string)
    ensures Split(s, '-') == [a, b] <==> s == a + "-" + b && '-' !in a && '-' !in b
  {
    if s == a + "-" + b && '-' !in a && '-' !in b {
      assert s == a + ['-'] + b;
      SplitAt(a, '-', b);
      SplitPlain(b, '-');
    }
    if Split(s, '-') == [a, b] {
      JoinSplit(s, '-');
      assert [a, b][1..] == [b];
      assert s == a + ['-'] + b && a + ['-'] + b == a + "-" + b;
      SplitAt(a, '-', b);
      assert Split(b, '-') == ([a] + Split(b, '-'))[1..] == [b];
      JoinSplit(b, '-');
    }
  }

  lemma ParsesExactlyRanges(s: string, r: PortsRange)
    ensures ParseOne(s) == Some(r) <==> RangeText(s, r)
  {
    var nums := Split(s, '-');
    JoinSplit(s, '-');
    if |nums| == 1 {
      ParseIntReadsNumerals(s, r.single);
    } else {
      if |nums| == 2 {
        assert nums == [nums[0], nums[1]];
        BoundsSplit(s, nums[0], nums[1]);
        ParseIntReadsNumerals(nums[0], r.start);
        ParseIntReadsNumerals(nums[1], r.end);
        assert ParseOne(s) == Some(r) <==> r.single == 0 && r.start <= r.end && IsBounds(s, nums[0], nums[1], r);
      }
      if a, b :| IsBounds(s, a, b, r) {
        BoundsSplit(s, a, b);
        assert a == nums[0] && b == nums[1];
      }
    }
  }

  lemma {:induction false} AllParsed(parts: seq<string>, ranges: seq<PortsRange>)
    ensures ParseAll(parts) == Some(ranges) <==>
            |parts| == |ranges| && forall i | 0 <= i < |parts| :: ParseOne(parts[i]) == Some(ranges[i])
  {
    if parts != [] && ranges != [] {
      var rest, tail := parts[1..], ranges[1..];
      AllParsed(rest, tail);
      assert ranges == [ranges[0]] + tail;
      HeadAndTail(ParseOne(parts[0]), ParseAll(rest), ranges[0], tail);
      assert forall i | 0 < i < |parts| :: parts[i] == rest[i - 1];
      if |parts| == |ranges| {
        assert forall i | 0 < i < |ranges| :: ranges[i] == tail[i - 1];
        assert forall i | 0 <= i < |rest| :: rest[i] == parts[i + 1] && tail[i] == ranges[i + 1];
      }
    }
  }

  /** A text is a list of ranges exactly when each of its entries, between commas, is the text of one. */
  lemma ParsesExactlyLists(str: string, ranges: seq<PortsRange>)
    ensures var parts := Split(TrimSpace(str), ',');
            Parse(str) == Some(ranges) <==>
            |parts| == |ranges| && forall i | 0 <= i < |parts| :: RangeText(parts[i], ranges[i])
  {
    var parts := Split(TrimSpace(str), ',');
    AllParsed(parts, ranges);
    if |parts| == |ranges| {
      forall i | 0 <= i < |parts| ensures ParseOne(parts[i]) == Some(ranges[i]) <==> RangeText(parts[i], ranges[i]) {
        ParsesExactlyRanges(parts[i], ranges[i]);
      }
    }
  }

  // ---- the round trip ----

  lemma PrintedSplits(r: PortsRange)
    ensures r.single > 0 ==> Split(PrintOne(r), '-') == [Itoa(r.single)]
    ensures r.single <= 0 && r.start >= 0 && r.end >= 0 ==> Split(PrintOne(r), '-') == [Itoa(r.start), Itoa(r.end)]
    ensures r.single <= 0 && (r.start < 0 || r.end < 0) ==> |Split(PrintOne(r), '-')| > 2
  {
    ItoaIsTight(r.single);
    ItoaIsTight(r.start);
    ItoaIsTight(r.end);
    var e := Itoa(r.end);
    if r.single > 0 {
      SplitPlain(Itoa(r.single), '-');
    } else if r.start >= 0 {
      SplitAt(Itoa(r.start), '-', e);
      assert Itoa(r.start) + "-" + e == Itoa(r.start) + ['-'] + e;
      if r.end >= 0 {
        SplitPlain(e, '-');
      } else {
        JoinSplit(e, '-');
      }
    } else {
      var d := Digits(-r.start);
      assert PrintOne(r) == [] + ['-'] + (d + ['-'] + e);
      SplitAt([], '-', d + ['-'] + e);
      SplitAt(d, '-', e);
    }
  }

  lemma RoundTripOne(r: PortsRange)
    requires Fits(r)
    ensures ParseOne(PrintOne(r)) == Some(r) <==> WellFormed(r)
  {
    PrintedSplits(r);
    forall n | INT64_MIN <= n <= INT64_MAX ensures ParseInt(TrimSpace(Itoa(n))) == Some(n) {
      ItoaIsTight(n);
      TrimTight(Itoa(n));
      ParseItoa(n);
    }
  }

  predicate AllWellFormed(ranges: seq<PortsRange>) {
    forall i | 0 <= i < |ranges| :: WellFormed(ranges[i])
  }

  lemma {:induction false} ParsePrinted(ranges: seq<PortsRange>)
    requires forall i | 0 <= i < |ranges| :: Fits(ranges[i])
    ensures ParseAll(PrintAll(ranges)) == Some(ranges) <==> AllWellFormed(ranges)
  {
    if ranges != [] {
      var r0, rest := ranges[0], ranges[1..];
      RoundTripOne(r0);
      ParsePrinted(rest);
      assert PrintAll(ranges)[0] == PrintOne(r0) && PrintAll(ranges)[1..] == PrintAll(rest);
      assert ranges == [r0] + rest;
      assert AllWellFormed(ranges) <==> WellFormed(r0) && AllWellFormed(rest) by {
        if WellFormed(r0) && AllWellFormed(rest) {
          forall i | 0 <= i < |ranges| ensures WellFormed(ranges[i]) {
            assert i > 0 ==> ranges[i] == rest[i - 1];
          }
        }
        if AllWellFormed(ranges) {
          forall i | 0 <= i < |rest| ensures WellFormed(rest[i]) {
            assert rest[i] == ranges[i + 1];
          }
        }
      }
      HeadAndTail(ParseOne(PrintOne(r0)), ParseAll(PrintAll(rest)), r0, rest);
    }
  }

  lemma {:induction false} JoinIsTight(parts: seq<string>)
    requires parts != [] && forall i | 0 <= i < |parts| :: parts[i] != [] && Tight(parts[i])
    ensures Join(parts, ',') != [] && Tight(Join(parts, ',')) && Join(parts, ',')[0] == parts[0][0]
  {
    if |parts| > 1 {
      JoinIsTight(parts[1..]);
    }
  }

  /** Printing and parsing back returns the list exactly when it is non-empty and every range is well formed. */
  lemma RoundTrip(ranges: seq<PortsRange>)
    requires forall i | 0 <= i < |ranges| :: Fits(ranges[i])
    ensures Parse(Print(ranges)) == Some(ranges) <==>
            ranges != [] && AllWellFormed(ranges)
  {
    var parts := PrintAll(ranges);
    if ranges == [] {
      assert parts == [];
      assert Parse(Print(ranges)) != Some(ranges) by {
        assert TrimSpace("") == "" && Split("", ',') == [""] && Split("", '-') == [""];
        assert ParseOne("").None?;
      }
    } else {
      forall i | 0 <= i < |parts| ensures parts[i] != [] && Tight(parts[i]) && ',' !in parts[i] {
        ItoaIsTight(ranges[i].single);
        ItoaIsTight(ranges[i].start);
        ItoaIsTight(ranges[i].end);
      }
      JoinIsTight(parts);
      TrimTight(Join(parts, ','));
      SplitJoin(parts, ',');
      ParsePrinted(ranges);
    }
  }
}

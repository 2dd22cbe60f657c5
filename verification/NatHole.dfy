/**
 The NAT hole recommender: which behaviour to try next between two peers, from scores
 that drop with every recommendation and rise with every reported success.
 */
module NatHole {
  import opened Options

  datatype NatType = EasyNAT | HardNAT

  datatype NatFeature = NatFeature(natType: NatType, regularPortsChange: bool, publicNetwork: bool)

  datatype Role = Sender | Receiver | NoRole

  datatype Behavior = Behavior(
    role: Role,
    ttl: int,
    sendDelayMs: int,
    portsRangeNumber: int,
    portsRandomNumber: int,
    listenRandomPorts: int)

  type Pair = (Behavior, Behavior)

  // ---- the mode tables ----

  function Send(delay: int): Behavior {
    Behavior(Sender, 0, delay, 0, 0, 0)
  }

  function Recv(ttl: int): Behavior {
    Behavior(Receiver, ttl, 0, 0, 0, 0)
  }

  /** With the number of ports around the observed one that are tried. */
  function Around(b: Behavior, n: int): Behavior {
    b.(portsRangeNumber := n)
  }

  function Random(b: Behavior): Behavior {
    b.(portsRandomNumber := 1000)
  }

  function ListenRandom(b: Behavior): Behavior {
    b.(listenRandomPorts := 256)
  }

  const MODE0: seq<Pair> := [
    (Send(0), Recv(7)), (Recv(7), Send(0)), (Send(0), Recv(4)), (Recv(4), Send(0)), (Send(0), Recv(0)),
    (Recv(0), Send(0)), (Send(5000), Recv(0)), (Send(10000), Recv(0)), (Recv(0), Send(5000)), (Recv(0), Send(10000))]

  const MODE1: seq<Pair> := [
    (Send(0), Around(Recv(7), 10)), (Send(2000), Around(Recv(7), 10)), (Send(0), Around(Recv(4), 10)),
    (Send(2000), Around(Recv(4), 10)), (Send(0), Around(Recv(0), 10)), (Send(2000), Around(Recv(0), 10))]

  const MODE2: seq<Pair> := [
    (Random(Send(3000)), ListenRandom(Recv(7))), (Random(Send(3000)), ListenRandom(Recv(4))),
    (Random(Send(3000)), ListenRandom(Recv(0)))]

  const MODE3: seq<Pair> := [
    (Around(Send(0), 10), Around(Recv(7), 10)), (Around(Send(0), 10), Around(Recv(4), 10)),
    (Around(Send(0), 10), Around(Recv(0), 10)), (Around(Recv(7), 10), Around(Send(0), 10)),
    (Around(Recv(4), 10), Around(Send(0), 10)), (Around(Recv(0), 10), Around(Send(0), 10))]

  const MODE4: seq<Pair> := [
    (Random(Send(3000)), Around(ListenRandom(Recv(7)), 2)), (Random(Send(3000)), Around(ListenRandom(Recv(4)), 2)),
    (Random(Send(3000)), Around(ListenRandom(Recv(0)), 2))]

  function ByMode(mode: int): seq<Pair> {
    match mode
    case 1 => MODE1
    case 2 => MODE2
    case 3 => MODE3
    case 4 => MODE4
    case _ => MODE0
  }

  const NOTHING := Behavior(NoRole, 0, 0, 0, 0, 0)

  function ByModeAndIndex(mode: int, index: nat): Pair {
    if index >= |ByMode(mode)| then (NOTHING, NOTHING) else ByMode(mode)[index]
  }

  // ---- scores ----

  datatype Score = Score(mode: int, index: nat, score: int)

  function TableScores(mode: int, senderScore: int, receiverScore: int): seq<Score> {
    var t := ByMode(mode);
    seq(|t|, i requires 0 <= i < |t| => Score(mode, i, if t[i].0.role.Sender? then senderScore else receiverScore))
  }

  /** The scores a pair of peers starts with. */
  function InitialScores(c: NatFeature, v: NatFeature): seq<Score> {
    var hard := (if c.natType.HardNAT? then 1 else 0) + (if v.natType.HardNAT? then 1 else 0);
    var regular := (if c.natType.HardNAT? && c.regularPortsChange then 1 else 0)
                   + (if v.natType.HardNAT? && v.regularPortsChange then 1 else 0);
    var mode0 := if c.publicNetwork then TableScores(0, 0, 1)
                 else if v.publicNetwork then TableScores(0, 1, 0)
                 else TableScores(0, 0, 0);
    if hard == 0 then mode0
    else if hard == 1 && regular == 1 then TableScores(1, 0, 0) + TableScores(2, 0, 0) + mode0
    else if hard == 1 && regular == 0 then TableScores(2, 0, 0) + TableScores(1, 0, 0) + mode0
    else if hard == 2 && regular == 2 then TableScores(3, 0, 0) + TableScores(4, 0, 0)
    else if hard == 2 && regular == 1 then TableScores(4, 0, 0)
    else TableScores(0, 1, 1) + TableScores(1, 1, 1) + TableScores(3, 1, 1)
  }

  // ---- choosing ----

  /** The position of the first entry with the highest score, as slices.MaxFunc has it. */
  function Best(scores: seq<Score>): (k: nat)
    requires scores != []
    ensures k < |scores|
    ensures forall i | 0 <= i < |scores| :: scores[i].score <= scores[k].score
    ensures forall i | 0 <= i < k :: scores[i].score < scores[k].score
  {
    if |scores| == 1 then 0
    else
      var k := Best(scores[..|scores| - 1]);
      if scores[|scores| - 1].score > scores[k].score then |scores| - 1 else k
  }

  /** The scores after a recommendation. */
  function Spent(scores: seq<Score>): (r: seq<Score>)
    requires scores != []
    ensures |r| == |scores|
  {
    var k := Best(scores);
    scores[k := scores[k].(score := scores[k].score - 1)]
  }

  predicate Is(s: Score, mode: int, index: nat) {
    s.mode == mode && s.index == index
  }

  /** The scores after a success report: the first entry of that mode and index gains two points, up to ten. */
  function Rewarded(scores: seq<Score>, mode: int, index: nat): (r: seq<Score>)
    ensures |r| == |scores|
  {
    if scores == [] then []
    else if Is(scores[0], mode, index) then
      [scores[0].(score := if scores[0].score + 2 < 10 then scores[0].score + 2 else 10)] + scores[1..]
    else [scores[0]] + Rewarded(scores[1..], mode, index)
  }

  // ---- fairness: when a behaviour is recommended ----

  /** How often entry i goes first before entry j does: ties go to the earlier of the two. */
  function Ahead(scores: seq<Score>, i: nat, j: nat): nat
    requires i < |scores| && j < |scores|
  {
    var d := scores[i].score - scores[j].score;
    if i < j && d >= 0 then d + 1 else if i > j && d > 0 then d else 0
  }

  /** How many recommendations go to the first n entries, j aside, before j is recommended. */
  function Waiting(scores: seq<Score>, j: nat, n: nat): nat
    requires j < |scores| && n <= |scores|
  {
    if n == 0 then 0 else Waiting(scores, j, n - 1) + Ahead(scores, n - 1, j)
  }

  /** n recommendations in a row, with no success reported. */
  function After(scores: seq<Score>, n: nat): (r: seq<Score>)
    requires scores != []
    ensures |r| == |scores|
    decreases n
  {
    if n == 0 then scores else After(Spent(scores), n - 1)
  }

  lemma {:induction false} WaitingFalls(scores: seq<Score>, j: nat, n: nat)
    requires j < |scores| && n <= |scores| && Best(scores) != j
    ensures Waiting(Spent(scores), j, n) == Waiting(scores, j, n) - (if Best(scores) < n then 1 else 0)
  {
    if n > 0 {
      WaitingFalls(scores, j, n - 1);
    }
  }

  lemma {:induction false} BestDoesNotWait(scores: seq<Score>, n: nat)
    requires scores != [] && n <= |scores|
    ensures Waiting(scores, Best(scores), n) == 0
  {
    if n > 0 {
      BestDoesNotWait(scores, n - 1);
    }
  }

  /** Without successes, behaviour j is recommended for the first time after exactly Waiting recommendations. */
  lemma {:induction false} TurnComesExactly(scores: seq<Score>, j: nat, m: nat)
    requires j < |scores|
    ensures var n := Waiting(scores, j, |scores|);
            Best(After(scores, n)) == j && (m < n ==> Best(After(scores, m)) != j)
    decreases Waiting(scores, j, |scores|)
  {
    if Best(scores) == j {
      BestDoesNotWait(scores, |scores|);
    } else {
      var next, n := Spent(scores), Waiting(scores, j, |scores|);
      WaitingFalls(scores, j, |scores|);
      TurnComesExactly(next, j, if m > 0 then m - 1 else 0);
      assert After(scores, n) == After(next, n - 1);
      assert After(scores, m) == if m == 0 then scores else After(next, m - 1);
    }
  }

  /** The sum over the other behaviours of how far each is above j, ties counting against j. */
  function Bound(scores: seq<Score>, j: nat, n: nat): nat
    requires j < |scores| && n <= |scores|
  {
    if n == 0 then 0
    else
      var d := scores[n - 1].score - scores[j].score + 1;
      Bound(scores, j, n - 1) + if n - 1 != j && d > 0 then d else 0
  }

  lemma {:induction false} WaitingIsBounded(scores: seq<Score>, j: nat, n: nat)
    requires j < |scores| && n <= |scores|
    ensures Waiting(scores, j, n) <= Bound(scores, j, n)
  {
    if n > 0 {
      WaitingIsBounded(scores, j, n - 1);
    }
  }

  // ---- success ----

  predicate Distinct(scores: seq<Score>) {
    forall i, j | 0 <= i < j < |scores| :: !Is(scores[j], scores[i].mode, scores[i].index)
  }

  predicate Capped(scores: seq<Score>) {
    forall i | 0 <= i < |scores| :: scores[i].score <= 10
  }

  /** Two score lists over the same behaviours. */
  predicate SameLayout(a: seq<Score>, b: seq<Score>) {
    |a| == |b| && forall i | 0 <= i < |a| :: Is(a[i], b[i].mode, b[i].index)
  }

  lemma {:induction false} RewardedAt(scores: seq<Score>, k: nat)
    requires k < |scores| && forall i | 0 <= i < k :: !Is(scores[i], scores[k].mode, scores[k].index)
    ensures var s := scores[k].score;
            Rewarded(scores, scores[k].mode, scores[k].index)
              == scores[k := scores[k].(score := if s + 2 < 10 then s + 2 else 10)]
  {
    if k > 0 {
      RewardedAt(scores[1..], k - 1);
      assert scores[1..][k - 1] == scores[k];
    }
  }

  lemma {:induction false} RewardKeeps(scores: seq<Score>, mode: int, index: nat)
    ensures SameLayout(Rewarded(scores, mode, index), scores)
    ensures Capped(scores) ==> Capped(Rewarded(scores, mode, index))
  {
    if scores != [] {
      RewardKeeps(scores[1..], mode, index);
      var r := Rewarded(scores[1..], mode, index);
      assert forall i | 0 < i < |scores| :: scores[i] == scores[1..][i - 1];
    }
  }

  lemma SpendKeeps(scores: seq<Score>)
    requires scores != []
    ensures SameLayout(Spent(scores), scores) && (Capped(scores) ==> Capped(Spent(scores)))
  {
  }

  /** One recommendation followed by the report that it succeeded. */
  function Proven(scores: seq<Score>): (r: seq<Score>)
    requires scores != []
    ensures |r| == |scores|
  {
    var k := Best(scores);
    Rewarded(Spent(scores), scores[k].mode, scores[k].index)
  }

  /** A behaviour that succeeds is recommended again. */
  lemma SuccessIsRepeated(scores: seq<Score>)
    requires scores != [] && Distinct(scores) && Capped(scores)
    ensures var r := Proven(scores);
            Best(r) == Best(scores) && SameLayout(r, scores) && Distinct(r) && Capped(r)
  {
    var k, spent := Best(scores), Spent(scores);
    SpendKeeps(scores);
    assert Distinct(spent);
    forall i | 0 <= i < k ensures !Is(spent[i], spent[k].mode, spent[k].index) {
      assert Is(spent[i], scores[i].mode, scores[i].index) && Is(spent[k], scores[k].mode, scores[k].index);
    }
    RewardedAt(spent, k);
    RewardKeeps(spent, scores[k].mode, scores[k].index);
    var r := Proven(scores);
    assert forall i | 0 <= i < |r| && i != k :: r[i] == scores[i];
    assert r[k].score >= scores[k].score;
  }

  function ProvenTimes(scores: seq<Score>, n: nat): (r: seq<Score>)
    requires scores != []
    ensures |r| == |scores|
    decreases n
  {
    if n == 0 then scores else ProvenTimes(Proven(scores), n - 1)
  }

  /** As long as it keeps succeeding, the same behaviour is recommended for ever. */
  lemma {:induction false} SuccessIsRepeatedForEver(scores: seq<Score>, n: nat)
    requires scores != [] && Distinct(scores) && Capped(scores)
    ensures Best(ProvenTimes(scores, n)) == Best(scores)
    decreases n
  {
    if n > 0 {
      var next := Proven(scores);
      assert ProvenTimes(scores, n) == ProvenTimes(next, n - 1);
      assert next != [] && Distinct(next) && Capped(next) && Best(next) == Best(scores) by {
        SuccessIsRepeated(scores);
      }
      SuccessIsRepeatedForEver(next, n - 1);
    }
  }

  lemma {:induction false} ProvenKeepsLayout(scores: seq<Score>, n: nat)
    requires scores != [] && Distinct(scores) && Capped(scores)
    ensures SameLayout(ProvenTimes(scores, n), scores)
    decreases n
  {
    if n > 0 {
      SuccessIsRepeated(scores);
      ProvenKeepsLayout(Proven(scores), n - 1);
    }
  }

  // ---- advice to a pair of peers ----

  datatype Advice = Advice(mode: int, index: nat, c: Behavior, v: Behavior)

  /** The behaviours of client and visitor: the table lists the sender or the client first, by mode. */
  function Assign(mode: int, index: nat, c: NatFeature, v: NatFeature): Advice {
    var (a, b) := ByModeAndIndex(mode, index);
    var swap := (mode == 1 && c.natType.EasyNAT?) || (mode == 2 && c.natType.HardNAT?)
                || (mode == 4 && !c.regularPortsChange);
    if swap then Advice(mode, index, b, a) else Advice(mode, index, a, b)
  }

  predicate OneHard(c: NatFeature, v: NatFeature) {
    c.natType != v.natType
  }

  /** What a recommendation must be to make sense to both peers. */
  predicate Sound(a: Advice, c: NatFeature, v: NatFeature) {
    && 0 <= a.mode <= 4 && a.index < |ByMode(a.mode)|
    && ((a.c, a.v) == ByMode(a.mode)[a.index] || (a.v, a.c) == ByMode(a.mode)[a.index])
    && (a.mode == 0 || a.mode == 3 ==> (a.c, a.v) == ByMode(a.mode)[a.index])
    && ((a.c.role.Sender? && a.v.role.Receiver?) || (a.c.role.Receiver? && a.v.role.Sender?))
    && (a.mode == 1 && OneHard(c, v) ==> (a.c.role.Sender? <==> c.natType.HardNAT?))
    && (a.mode == 2 ==> OneHard(c, v) && (a.c.role.Receiver? <==> c.natType.HardNAT?))
    && (a.mode == 4 ==> !OneHard(c, v) && c.natType.HardNAT?)
    && (a.mode == 4 && c.regularPortsChange != v.regularPortsChange ==> (a.c.role.Sender? <==> c.regularPortsChange))
  }

  /** Every table lists one sender and one receiver, and the one-sided tables the sender first. */
  lemma TablesAreTwoSided(mode: int, i: nat)
    requires 0 <= mode <= 4 && i < |ByMode(mode)|
    ensures var (a, b) := ByMode(mode)[i];
            && (a.role.Sender? ==> b.role.Receiver?) && (a.role.Receiver? ==> b.role.Sender?) && !a.role.NoRole?
            && (mode == 1 || mode == 2 || mode == 4 ==> a.role.Sender?)
  {
  }

  /** An entry of a mode that the features of the peers admit. */
  predicate Admits(s: Score, c: NatFeature, v: NatFeature) {
    && 0 <= s.mode <= 4 && s.index < |ByMode(s.mode)| && s.score <= 10
    && (s.mode == 2 ==> OneHard(c, v)) && (s.mode == 4 ==> c.natType.HardNAT? && v.natType.HardNAT?)
  }

  lemma AssignIsSound(s: Score, c: NatFeature, v: NatFeature)
    requires Admits(s, c, v)
    ensures Sound(Assign(s.mode, s.index, c, v), c, v)
  {
    TablesAreTwoSided(s.mode, s.index);
  }

  predicate AllAdmitted(scores: seq<Score>, c: NatFeature, v: NatFeature) {
    scores != [] && Distinct(scores) && forall i | 0 <= i < |scores| :: Admits(scores[i], c, v)
  }

  lemma TablesAreDistinct(a: seq<Score>, b: seq<Score>)
    requires Distinct(a) && Distinct(b) && forall i, j | 0 <= i < |a| && 0 <= j < |b| :: a[i].mode != b[j].mode
    ensures Distinct(a + b)
  {
  }

  lemma TableAdmitted(mode: int, senderScore: int, receiverScore: int, c: NatFeature, v: NatFeature)
    requires 0 <= mode <= 4 && senderScore <= 10 && receiverScore <= 10
    requires (mode == 2 ==> OneHard(c, v)) && (mode == 4 ==> c.natType.HardNAT? && v.natType.HardNAT?)
    ensures AllAdmitted(TableScores(mode, senderScore, receiverScore), c, v)
  {
  }

  /** The modes a pair starts with are modes its features admit. */
  lemma InitialAdmitted(c: NatFeature, v: NatFeature)
    ensures AllAdmitted(InitialScores(c, v), c, v)
  {
    TableAdmitted(0, 0, 0, c, v);
    TableAdmitted(0, 0, 1, c, v);
    TableAdmitted(0, 1, 0, c, v);
    TableAdmitted(0, 1, 1, c, v);
    TableAdmitted(1, 0, 0, c, v);
    TableAdmitted(1, 1, 1, c, v);
    TableAdmitted(3, 0, 0, c, v);
    TableAdmitted(3, 1, 1, c, v);
    if OneHard(c, v) {
      TableAdmitted(2, 0, 0, c, v);
    } else if c.natType.HardNAT? {
      TableAdmitted(4, 0, 0, c, v);
    }
    forall x, y | 0 <= x <= 1 && 0 <= y <= 1 ensures Distinct(TableScores(2, 0, 0) + TableScores(1, 0, 0) + TableScores(0, x, y))
      && Distinct(TableScores(1, 0, 0) + TableScores(2, 0, 0) + TableScores(0, x, y)) {
      TablesAreDistinct(TableScores(2, 0, 0), TableScores(1, 0, 0));
      TablesAreDistinct(TableScores(1, 0, 0), TableScores(2, 0, 0));
      TablesAreDistinct(TableScores(2, 0, 0) + TableScores(1, 0, 0), TableScores(0, x, y));
      TablesAreDistinct(TableScores(1, 0, 0) + TableScores(2, 0, 0), TableScores(0, x, y));
    }
    TablesAreDistinct(TableScores(3, 0, 0), TableScores(4, 0, 0));
    TablesAreDistinct(TableScores(0, 1, 1), TableScores(1, 1, 1));
    TablesAreDistinct(TableScores(0, 1, 1) + TableScores(1, 1, 1), TableScores(3, 1, 1));
  }

  // ---- which behaviours a pair starts with ----

  function HardPeers(c: NatFeature, v: NatFeature): nat {
    (if c.natType.HardNAT? then 1 else 0) + (if v.natType.HardNAT? then 1 else 0)
  }

  /** Peers on hard NATs whose ports change regularly. */
  function RegularPeers(c: NatFeature, v: NatFeature): nat {
    (if c.natType.HardNAT? && c.regularPortsChange then 1 else 0)
    + (if v.natType.HardNAT? && v.regularPortsChange then 1 else 0)
  }

  /** The modes worth trying, by how hard the two NATs are. */
  predicate Tried(mode: int, c: NatFeature, v: NatFeature) {
    var hard, regular := HardPeers(c, v), RegularPeers(c, v);
    match mode
    case 0 => hard < 2 || regular == 0
    case 1 => hard == 1 || (hard == 2 && regular == 0)
    case 2 => hard == 1
    case 3 => hard == 2 && regular != 1
    case 4 => hard == 2 && regular > 0
    case _ => false
  }

  predicate Lists(s: seq<Score>, mode: int, i: nat) {
    exists k | 0 <= k < |s| :: Is(s[k], mode, i)
  }

  lemma TableLists(table: int, x: int, y: int, mode: int, i: nat)
    requires 0 <= table <= 4
    ensures Lists(TableScores(table, x, y), mode, i) <==> mode == table && i < |ByMode(table)|
  {
    if mode == table && i < |ByMode(table)| {
      assert Is(TableScores(table, x, y)[i], mode, i);
    }
  }

  lemma ListsBoth(s: seq<Score>, t: seq<Score>, mode: int, i: nat)
    ensures Lists(s + t, mode, i) <==> Lists(s, mode, i) || Lists(t, mode, i)
  {
    if k :| 0 <= k < |s| && Is(s[k], mode, i) {
      assert Is((s + t)[k], mode, i);
    }
    if k :| 0 <= k < |t| && Is(t[k], mode, i) {
      assert Is((s + t)[|s| + k], mode, i);
    }
  }

  /** A pair starts with every behaviour of the modes worth trying and with no other. */
  lemma InitialModes(c: NatFeature, v: NatFeature, mode: int, i: nat)
    ensures Lists(InitialScores(c, v), mode, i) <==> Tried(mode, c, v) && i < |ByMode(mode)|
  {
    var x, y := if !c.publicNetwork && v.publicNetwork then 1 else 0, if c.publicNetwork then 1 else 0;
    var hard, regular := HardPeers(c, v), RegularPeers(c, v);
    var zero, one, two := TableScores(0, x, y), TableScores(1, 0, 0), TableScores(2, 0, 0);
    TableLists(0, x, y, mode, i);
    TableLists(1, 0, 0, mode, i);
    TableLists(2, 0, 0, mode, i);
    TableLists(3, 0, 0, mode, i);
    TableLists(4, 0, 0, mode, i);
    if hard == 1 {
      ListsBoth(one, two, mode, i);
      ListsBoth(two, one, mode, i);
      ListsBoth(one + two, zero, mode, i);
      ListsBoth(two + one, zero, mode, i);
    } else if hard == 2 && regular == 2 {
      ListsBoth(TableScores(3, 0, 0), TableScores(4, 0, 0), mode, i);
    } else if hard == 2 && regular == 0 {
      TableLists(0, 1, 1, mode, i);
      TableLists(1, 1, 1, mode, i);
      TableLists(3, 1, 1, mode, i);
      ListsBoth(TableScores(0, 1, 1), TableScores(1, 1, 1), mode, i);
      ListsBoth(TableScores(0, 1, 1) + TableScores(1, 1, 1), TableScores(3, 1, 1), mode, i);
    }
  }

  lemma BestIs(s: seq<Score>, k: nat)
    requires k < |s| && (forall i | 0 <= i < |s| :: s[i].score <= s[k].score)
    requires forall i | 0 <= i < k :: s[i].score < s[k].score
    ensures Best(s) == k
  {
  }

  lemma FirstOfEqual(s: seq<Score>)
    requires s != [] && forall i | 0 <= i < |s| :: s[i].score == s[0].score
    ensures Best(s) == 0
  {
    BestIs(s, 0);
  }

  /** How the modes look for a port: nearby ones, many random ones, or both. */
  lemma ModesScan(mode: int, i: nat)
    requires 0 <= mode <= 4 && i < |ByMode(mode)|
    ensures var (a, b) := ByMode(mode)[i];
            match mode
            case 1 => a.portsRangeNumber == 0 && b.portsRangeNumber == 10
            case 2 => a.portsRandomNumber == 1000 && b.listenRandomPorts == 256
            case 3 => a.portsRangeNumber == 10 && b.portsRangeNumber == 10
            case 4 => a.portsRandomNumber == 1000 && b.portsRangeNumber == 2 && b.listenRandomPorts == 256
            case _ => a.portsRangeNumber == 0 && b.portsRangeNumber == 0
    ensures var (a, b) := ByMode(mode)[i];
            && (mode != 2 && mode != 4 ==> a.portsRandomNumber == b.portsRandomNumber == 0)
            && (mode != 2 && mode != 4 ==> a.listenRandomPorts == b.listenRandomPorts == 0)
            && (a.role.Sender? ==> a.ttl == 0 && b.sendDelayMs == 0) && (b.role.Sender? ==> b.ttl == 0 && a.sendDelayMs == 0)
  {
  }

  lemma EvenStart(c: NatFeature, v: NatFeature)
    requires HardPeers(c, v) == 2 || (!c.publicNetwork && !v.publicNetwork)
    ensures InitialScores(c, v) != [] && Best(InitialScores(c, v)) == 0
  {
    FirstOfEqual(InitialScores(c, v));
  }

  lemma PublicStart(c: NatFeature, v: NatFeature)
    requires HardPeers(c, v) < 2 && (c.publicNetwork || v.publicNetwork)
    ensures var s := InitialScores(c, v);
            |s| >= 10 && Best(s) == |s| - 10 + if c.publicNetwork then 1 else 0
  {
    var s := InitialScores(c, v);
    BestIs(s, |s| - 10 + if c.publicNetwork then 1 else 0);
  }

  /** What a pair tries first: mode 0 if a peer is public and not both are on hard NATs, and else by the NATs. */
  lemma FirstTried(c: NatFeature, v: NatFeature)
    ensures var s := InitialScores(c, v);
            var hard, regular := HardPeers(c, v), RegularPeers(c, v);
            && s != []
            && s[Best(s)].mode == (if hard == 1 && !c.publicNetwork && !v.publicNetwork then (if regular == 1 then 1 else 2)
                                   else if hard == 2 && regular > 0 then (if regular == 2 then 3 else 4)
                                   else 0)
  {
    if HardPeers(c, v) == 2 || !(c.publicNetwork || v.publicNetwork) {
      EvenStart(c, v);
    } else {
      PublicStart(c, v);
    }
  }

  lemma LayoutKeepsAdmitted(a: seq<Score>, b: seq<Score>, c: NatFeature, v: NatFeature)
    requires AllAdmitted(b, c, v) && SameLayout(a, b) && Capped(a)
    ensures AllAdmitted(a, c, v)
  {
    forall i | 0 <= i < |a| ensures Admits(a[i], c, v) {
      assert Admits(b[i], c, v);
    }
    forall i, j | 0 <= i < j < |a| ensures !Is(a[j], a[i].mode, a[i].index) {
      assert !Is(b[j], b[i].mode, b[i].index);
    }
  }

  // ---- histories ----

  datatype Records = Records(scores: seq<Score>, updated: int)

  type Book = map<string, Records>

  /** recommand: nothing known of the pair means mode 0, index 0, and nothing to spend. */
  function Pick(scores: seq<Score>): (int, nat) {
    if scores == [] then (0, 0) else (scores[Best(scores)].mode, scores[Best(scores)].index)
  }

  function AfterPick(r: Records, now: int): Records {
    if r.scores == [] then r else Records(Spent(r.scores), now)
  }

  /** The records of a pair, made from its features on first sight. */
  function Opened(b: Book, key: string, c: NatFeature, v: NatFeature, now: int): Records {
    if key in b then b[key] else Records(InitialScores(c, v), now)
  }

  function AfterAsk(b: Book, key: string, c: NatFeature, v: NatFeature, now: int): Book {
    b[key := AfterPick(Opened(b, key, c, v, now), now)]
  }

  function AdviceFor(b: Book, key: string, c: NatFeature, v: NatFeature, now: int): Advice {
    var (mode, index) := Pick(Opened(b, key, c, v, now).scores);
    Assign(mode, index, c, v)
  }

  function AfterReport(b: Book, key: string, mode: int, index: nat, now: int): Book {
    if key in b then b[key := Records(Rewarded(b[key].scores, mode, index), now)] else b
  }

  function AfterClean(b: Book, now: int, keep: int): Book {
    map k | k in b && now - b[k].updated <= keep :: b[k]
  }

  datatype Op =
    | Ask(key: string, now: int)
    | Report(key: string, mode: int, index: nat, now: int)
    | Clean(now: int, keep: int)

  /** The features of the two peers behind each key. */
  type Peers = string -> (NatFeature, NatFeature)

  function Apply(b: Book, op: Op, peers: Peers): Book {
    match op
    case Ask(key, now) => AfterAsk(b, key, peers(key).0, peers(key).1, now)
    case Report(key, mode, index, now) => AfterReport(b, key, mode, index, now)
    case Clean(now, keep) => AfterClean(b, now, keep)
  }

  function Exec(b: Book, ops: seq<Op>, peers: Peers): Book
    decreases |ops|
  {
    if ops == [] then b else Exec(Apply(b, ops[0], peers), ops[1..], peers)
  }

  predicate BookOk(b: Book, peers: Peers) {
    forall k | k in b :: AllAdmitted(b[k].scores, peers(k).0, peers(k).1)
  }

  lemma AdmittedIsCapped(scores: seq<Score>, c: NatFeature, v: NatFeature)
    requires AllAdmitted(scores, c, v)
    ensures Capped(scores)
  {
    forall i | 0 <= i < |scores| ensures scores[i].score <= 10 {
      assert Admits(scores[i], c, v);
    }
  }

  lemma StepKeepsBook(b: Book, op: Op, peers: Peers)
    requires BookOk(b, peers)
    ensures BookOk(Apply(b, op, peers), peers)
  {
    if op.Ask? {
      var (c, v) := peers(op.key);
      InitialAdmitted(c, v);
      var r := Opened(b, op.key, c, v, op.now);
      AdmittedIsCapped(r.scores, c, v);
      SpendKeeps(r.scores);
      LayoutKeepsAdmitted(Spent(r.scores), r.scores, c, v);
    } else if op.Report? && op.key in b {
      var (c, v) := peers(op.key);
      AdmittedIsCapped(b[op.key].scores, c, v);
      RewardKeeps(b[op.key].scores, op.mode, op.index);
      LayoutKeepsAdmitted(Rewarded(b[op.key].scores, op.mode, op.index), b[op.key].scores, c, v);
    }
  }

  lemma {:induction false} RunKeepsBook(b: Book, ops: seq<Op>, peers: Peers)
    requires BookOk(b, peers)
    ensures BookOk(Exec(b, ops, peers), peers)
    decreases |ops|
  {
    if ops != [] {
      StepKeepsBook(b, ops[0], peers);
      RunKeepsBook(Apply(b, ops[0], peers), ops[1..], peers);
    }
  }

  /** After any history, every recommendation is sound, and no score is above 10. */
  lemma AdviceIsSound(ops: seq<Op>, peers: Peers, key: string, now: int)
    ensures var b := Exec(map[], ops, peers);
            && Sound(AdviceFor(b, key, peers(key).0, peers(key).1, now), peers(key).0, peers(key).1)
            && (key in b ==> Capped(b[key].scores))
  {
    RunKeepsBook(map[], ops, peers);
    var b := Exec(map[], ops, peers);
    var (c, v) := peers(key);
    InitialAdmitted(c, v);
    var r := Opened(b, key, c, v, now);
    assert Admits(r.scores[Best(r.scores)], c, v);
    AssignIsSound(r.scores[Best(r.scores)], c, v);
    AdmittedIsCapped(r.scores, c, v);
  }

  // ---- the laws of choosing, for the operations ----

  /** The scores behind the next advice for a pair. */
  function ScoresOf(b: Book, key: string, peers: Peers): seq<Score> {
    if key in b then b[key].scores else InitialScores(peers(key).0, peers(key).1)
  }

  lemma BookGivesScores(b: Book, key: string, peers: Peers)
    requires BookOk(b, peers)
    ensures AllAdmitted(ScoresOf(b, key, peers), peers(key).0, peers(key).1) && Capped(ScoresOf(b, key, peers))
  {
    InitialAdmitted(peers(key).0, peers(key).1);
    AdmittedIsCapped(ScoresOf(b, key, peers), peers(key).0, peers(key).1);
  }

  /** Asking and reporting for one pair leaves every other as it was. */
  lemma OtherPairsUntouched(b: Book, op: Op, peers: Peers, key: string)
    requires !op.Clean? && op.key != key
    ensures Lookup(Apply(b, op, peers), key) == Lookup(b, key)
  {
  }

  /** A pair is kept exactly as long as it was asked for within the reserve. */
  lemma KeptWhileUsed(b: Book, peers: Peers, key: string, t: int, now: int, keep: int)
    requires BookOk(b, peers)
    ensures var used := Apply(b, Ask(key, t), peers);
            Lookup(Apply(used, Clean(now, keep), peers), key) == if now - t <= keep then Some(used[key]) else None
  {
    BookGivesScores(b, key, peers);
  }

  /** Nothing is reported and nothing cleaned; what is asked for other pairs plays no part. */
  predicate OnlyAsks(ops: seq<Op>) {
    forall i | 0 <= i < |ops| :: ops[i].Ask?
  }

  function AskedFor(ops: seq<Op>, key: string): nat
    requires OnlyAsks(ops)
  {
    if ops == [] then 0 else (if ops[0].key == key then 1 else 0) + AskedFor(ops[1..], key)
  }

  lemma OneAsk(b: Book, op: Op, peers: Peers, key: string)
    requires BookOk(b, peers) && op.Ask?
    ensures ScoresOf(b, key, peers) != []
    ensures ScoresOf(Apply(b, op, peers), key, peers) ==
            if op.key == key then Spent(ScoresOf(b, key, peers)) else ScoresOf(b, key, peers)
  {
    BookGivesScores(b, key, peers);
    if op.key != key {
      OtherPairsUntouched(b, op, peers, key);
      assert key in Apply(b, op, peers) <==> key in b;
    }
  }

  lemma {:induction false} AsksSpend(b: Book, ops: seq<Op>, peers: Peers, key: string)
    requires BookOk(b, peers) && OnlyAsks(ops) && ScoresOf(b, key, peers) != []
    ensures BookOk(Exec(b, ops, peers), peers)
    ensures ScoresOf(Exec(b, ops, peers), key, peers) == After(ScoresOf(b, key, peers), AskedFor(ops, key))
    decreases |ops|
  {
    if ops != [] {
      var next := Apply(b, ops[0], peers);
      assert BookOk(next, peers) by {
        StepKeepsBook(b, ops[0], peers);
      }
      OneAsk(b, ops[0], peers, key);
      AsksSpend(next, ops[1..], peers, key);
    }
  }

  lemma {:induction false} AfterKeepsLayout(scores: seq<Score>, n: nat)
    requires scores != []
    ensures SameLayout(After(scores, n), scores)
    decreases n
  {
    if n > 0 {
      SpendKeeps(scores);
      AfterKeepsLayout(Spent(scores), n - 1);
    }
  }

  lemma AdviceIsBest(b: Book, peers: Peers, key: string, now: int)
    requires BookOk(b, peers)
    ensures var (c, v) := peers(key);
            var s := ScoresOf(b, key, peers);
            && s != [] && AdviceFor(b, key, c, v, now) == Assign(s[Best(s)].mode, s[Best(s)].index, c, v)
  {
    BookGivesScores(b, key, peers);
  }

  lemma DistinctAt(s: seq<Score>, j: nat, k: nat)
    requires Distinct(s) && j < |s| && k < |s|
    ensures j != k ==> !Is(s[j], s[k].mode, s[k].index)
  {
    assert j < k ==> !Is(s[k], s[j].mode, s[j].index);
  }

  /**
   Without successes, a behaviour is advised for the first time after exactly Waiting requests for the pair, whatever
   is asked for others meanwhile.
   */
  lemma TurnComesInAdvice(b: Book, ops: seq<Op>, peers: Peers, key: string, j: nat, now: int)
    requires BookOk(b, peers) && OnlyAsks(ops) && j < |ScoresOf(b, key, peers)|
    ensures var (c, v) := peers(key);
            var s := ScoresOf(b, key, peers);
            var a := AdviceFor(Exec(b, ops, peers), key, c, v, now);
            && (AskedFor(ops, key) == Waiting(s, j, |s|) ==> a == Assign(s[j].mode, s[j].index, c, v))
            && (AskedFor(ops, key) < Waiting(s, j, |s|) ==> a.mode != s[j].mode || a.index != s[j].index)
  {
    var s, n := ScoresOf(b, key, peers), AskedFor(ops, key);
    BookGivesScores(b, key, peers);
    AsksSpend(b, ops, peers, key);
    AdviceIsBest(Exec(b, ops, peers), peers, key, now);
    TurnComesExactly(s, j, n);
    AfterKeepsLayout(s, n);
    var k := Best(After(s, n));
    assert Is(After(s, n)[k], s[k].mode, s[k].index);
    DistinctAt(s, j, k);
  }

  /** The advice is taken and reported as a success, once for each of the times given. */
  function AfterSuccesses(b: Book, key: string, peers: Peers, times: seq<int>): Book
    decreases |times|
  {
    if times == [] then b
    else
      var a := AdviceFor(b, key, peers(key).0, peers(key).1, times[0]);
      var asked := Apply(b, Ask(key, times[0]), peers);
      AfterSuccesses(Apply(asked, Report(key, a.mode, a.index, times[0]), peers), key, peers, times[1..])
  }

  lemma {:induction false} SuccessesProve(b: Book, key: string, peers: Peers, times: seq<int>)
    requires BookOk(b, peers)
    ensures ScoresOf(b, key, peers) != [] && BookOk(AfterSuccesses(b, key, peers, times), peers)
    ensures ScoresOf(AfterSuccesses(b, key, peers, times), key, peers) == ProvenTimes(ScoresOf(b, key, peers), |times|)
    decreases |times|
  {
    BookGivesScores(b, key, peers);
    if times != [] {
      var s := ScoresOf(b, key, peers);
      var a := AdviceFor(b, key, peers(key).0, peers(key).1, times[0]);
      AdviceIsBest(b, peers, key, times[0]);
      var asked := Apply(b, Ask(key, times[0]), peers);
      var next := Apply(asked, Report(key, a.mode, a.index, times[0]), peers);
      StepKeepsBook(b, Ask(key, times[0]), peers);
      StepKeepsBook(asked, Report(key, a.mode, a.index, times[0]), peers);
      assert asked[key].scores == Spent(s) && ScoresOf(next, key, peers) == Proven(s);
      SuccessesProve(next, key, peers, times[1..]);
    }
  }

  /** After any history, as long as what is advised succeeds, the same is advised. */
  lemma SuccessSticks(ops: seq<Op>, peers: Peers, key: string, times: seq<int>, now: int)
    ensures var b := Exec(map[], ops, peers);
            var (c, v) := peers(key);
            AdviceFor(AfterSuccesses(b, key, peers, times), key, c, v, now) == AdviceFor(b, key, c, v, now)
  {
    RunKeepsBook(map[], ops, peers);
    var b := Exec(map[], ops, peers);
    var s := ScoresOf(b, key, peers);
    BookGivesScores(b, key, peers);
    SuccessesProve(b, key, peers, times);
    SuccessIsRepeatedForEver(s, |times|);
    ProvenKeepsLayout(s, |times|);
    AdviceIsBest(b, peers, key, now);
    AdviceIsBest(AfterSuccesses(b, key, peers, times), peers, key, now);
  }

  /** Until its least delayed member has its turn, nothing in a set of behaviours is recommended. */
  lemma NoneOfThemBefore(s: seq<Score>, late: set<nat>, first: nat, m: nat)
    requires first in late && first < |s|
    requires forall k | k in late :: k < |s| && Waiting(s, k, |s|) >= Waiting(s, first, |s|)
    ensures Best(After(s, Waiting(s, first, |s|))) == first
    ensures m < Waiting(s, first, |s|) ==> Best(After(s, m)) !in late
  {
    TurnComesExactly(s, first, m);
    if Best(After(s, m)) in late {
      TurnComesExactly(s, Best(After(s, m)), m);
    }
  }

  /** The role the peer on the public network, the client or the visitor, plays in a behaviour of mode 0. */
  function PublicRole(client: bool, k: nat): Role
    requires k < |MODE0|
  {
    if client then MODE0[k].0.role else MODE0[k].1.role
  }

  /** The behaviours in which the public side sends. */
  function Sending(client: bool): set<nat> {
    set k: nat | k < |MODE0| && PublicRole(client, k).Sender?
  }

  lemma SendsOrReceives(client: bool, k: nat)
    requires k < |MODE0|
    ensures k !in Sending(client) ==> PublicRole(client, k).Receiver?
  {
    TablesAreTwoSided(0, k);
  }

  lemma ReceivesAtFirst(s: seq<Score>, k: nat, client: bool)
    requires s == (if client then TableScores(0, 0, 1) else TableScores(0, 1, 0)) && k < 10
    requires PublicRole(client, k).Sender?
    ensures var first := if client then 0 else 1;
            Waiting(s, k, 10) >= 5 + first && (k == first ==> Waiting(s, k, 10) == 5 + first)
  {
    assert Waiting(s, k, 2) == Waiting(s, k, 1) + Ahead(s, 1, k) && Waiting(s, k, 1) == Waiting(s, k, 0) + Ahead(s, 0, k);
    assert Waiting(s, k, 4) == Waiting(s, k, 3) + Ahead(s, 3, k) && Waiting(s, k, 3) == Waiting(s, k, 2) + Ahead(s, 2, k);
    assert Waiting(s, k, 6) == Waiting(s, k, 5) + Ahead(s, 5, k) && Waiting(s, k, 5) == Waiting(s, k, 4) + Ahead(s, 4, k);
    assert Waiting(s, k, 8) == Waiting(s, k, 7) + Ahead(s, 7, k) && Waiting(s, k, 7) == Waiting(s, k, 6) + Ahead(s, 6, k);
    assert Waiting(s, k, 10) == Waiting(s, k, 9) + Ahead(s, 9, k) && Waiting(s, k, 9) == Waiting(s, k, 8) + Ahead(s, 8, k);
  }

  lemma PublicTurns(s: seq<Score>, client: bool, m: nat)
    requires s == if client then TableScores(0, 0, 1) else TableScores(0, 1, 0)
    ensures var n := if client then 5 else 6;
            && |s| == |MODE0| && PublicRole(client, Best(After(s, n))).Sender?
            && (m < n ==> PublicRole(client, Best(After(s, m))).Receiver?)
  {
    var first := if client then 0 else 1;
    var late := Sending(client);
    forall k | k in late ensures Waiting(s, k, |s|) >= 5 + first {
      ReceivesAtFirst(s, k, client);
    }
    ReceivesAtFirst(s, first, client);
    NoneOfThemBefore(s, late, first, m);
    SendsOrReceives(client, Best(After(s, m)));
  }

  /**
   "PublicNetwork is always receiver" holds for a few attempts only: with both peers on easy
   NATs and no success, the sixth makes a client on the public network the sender, and the
   seventh a visitor.
   */
  lemma PublicSideSendsInTheEnd(ops: seq<Op>, peers: Peers, key: string, now: int)
    requires OnlyAsks(ops)
    requires var (c, v) := peers(key);
             c.natType.EasyNAT? && v.natType.EasyNAT? && (c.publicNetwork || v.publicNetwork)
    ensures var (c, v) := peers(key);
            var a := AdviceFor(Exec(map[], ops, peers), key, c, v, now);
            var role := if c.publicNetwork then a.c.role else a.v.role;
            var n := if c.publicNetwork then 5 else 6;
            (AskedFor(ops, key) < n ==> role.Receiver?) && (AskedFor(ops, key) == n ==> role.Sender?)
  {
    var (c, v) := peers(key);
    var n := AskedFor(ops, key);
    var b := Exec(map[], ops, peers);
    var s := InitialScores(c, v);
    PublicTurns(s, c.publicNetwork, n);
    AsksSpend(map[], ops, peers, key);
    AdviceIsBest(b, peers, key, now);
    AfterKeepsLayout(s, n);
    var k := Best(After(s, n));
    assert Is(After(s, n)[k], s[k].mode, s[k].index) && s[k].mode == 0 && s[k].index == k;
  }

  // ---- the analyzer ----

  lemma {:induction false} RewardedNowhere(scores: seq<Score>, mode: int, index: nat)
    requires forall i | 0 <= i < |scores| :: !Is(scores[i], mode, index)
    ensures Rewarded(scores, mode, index) == scores
  {
    if scores != [] {
      RewardedNowhere(scores[1..], mode, index);
    }
  }

  class MakeHoleRecords {
    const scores: array<Score>
    var lastUpdateTime: int

    ghost function Value(): Records
      reads this, scores
    {
      Records(scores[..], lastUpdateTime)
    }

    constructor (c: NatFeature, v: NatFeature, now: int)
      ensures Value() == Records(InitialScores(c, v), now) && fresh(scores)
    {
      var initial := InitialScores(c, v);
      scores := new Score[|initial|](i requires 0 <= i < |initial| => initial[i]);
      lastUpdateTime := now;
    }

    /** reportSuccess: a mode and index that are not listed change nothing but the time. */
    method ReportSuccess(mode: int, index: nat, now: int)
      modifies this, scores
      ensures Value() == Records(Rewarded(old(scores[..]), mode, index), now)
    {
      lastUpdateTime := now;
      for i := 0 to scores.Length
        invariant scores[..] == old(scores[..]) && lastUpdateTime == now
        invariant forall j | 0 <= j < i :: !Is(scores[j], mode, index)
      {
        var s := scores[i];
        if s.mode != mode || s.index != index {
          continue;
        }
        RewardedAt(scores[..], i);
        scores[i] := s.(score := if s.score + 2 < 10 then s.score + 2 else 10);
        return;
      }
      RewardedNowhere(scores[..], mode, index);
    }

    /** recommand: the first of the highest scores, which it lowers by one. */
    method Recommand(now: int) returns (mode: int, index: nat)
      modifies this, scores
      ensures (mode, index) == Pick(old(scores[..])) && Value() == AfterPick(old(Value()), now)
    {
      if scores.Length == 0 {
        return 0, 0;
      }
      var k := 0;
      for i := 1 to scores.Length
        invariant k == Best(scores[..i])
      {
        assert scores[..i + 1][..i] == scores[..i];
        if scores[i].score > scores[k].score {
          k := i;
        }
      }
      assert scores[..scores.Length] == scores[..];
      mode, index := scores[k].mode, scores[k].index;
      scores[k] := scores[k].(score := scores[k].score - 1);
      lastUpdateTime := now;
    }
  }

  /** The mode switch at the end of GetRecommandBehaviors. */
  method AssignRoles(mode: int, index: nat, c: NatFeature, v: NatFeature) returns (a: Advice)
    ensures a == Assign(mode, index, c, v)
  {
    var (cb, vb) := ByModeAndIndex(mode, index);
    match mode {
      case 1 =>
        if c.natType.EasyNAT? {
          cb, vb := vb, cb;
        }
      case 2 =>
        if c.natType.HardNAT? {
          cb, vb := vb, cb;
        }
      case 4 =>
        if !c.regularPortsChange {
          cb, vb := vb, cb;
        }
      case _ =>
    }
    a := Advice(mode, index, cb, vb);
  }

  lemma OneLess<K, V>(m: map<K, V>, k: K)
    requires k in m
    ensures |m - {k}| == |m| - 1
  {
    assert (m - {k}).Keys == m.Keys - {k};
  }

  class Analyzer {
    var records: map<string, MakeHoleRecords>
    const reserve: int
    ghost var repr: set<object>

    /** No two keys share their records. */
    ghost predicate Valid()
      reads this, repr
    {
      && this !in repr
      && (forall k | k in records :: records[k] in repr && records[k].scores in repr)
      && (forall k, l | k in records && l in records && k != l ::
            records[k] != records[l] && records[k].scores != records[l].scores)
    }

    ghost function View(): Book
      reads this, repr
      requires Valid()
    {
      map k | k in records :: records[k].Value()
    }

    constructor (reserve: int)
      ensures Valid() && View() == map[] && this.reserve == reserve && repr == {}
    {
      records, repr := map[], {};
      this.reserve := reserve;
    }

    method Fetch(key: string, c: NatFeature, v: NatFeature, now: int) returns (r: MakeHoleRecords)
      requires Valid()
      modifies this
      ensures Valid() && fresh(repr - old(repr)) && key in records && r == records[key]
      ensures View() == old(View())[key := Opened(old(View()), key, c, v, now)]
    {
      if key !in records {
        var made := new MakeHoleRecords(c, v, now);
        records := records[key := made];
        repr := repr + {made, made.scores};
      }
      r := records[key];
    }

    method Spend(key: string, now: int) returns (mode: int, index: nat)
      requires Valid() && key in records
      modifies repr
      ensures Valid() && (mode, index) == Pick(old(View())[key].scores)
      ensures View() == old(View())[key := AfterPick(old(View())[key], now)]
    {
      mode, index := records[key].Recommand(now);
    }

    /** The part of GetRecommandBehaviors that works on the records. */
    method Ask(key: string, c: NatFeature, v: NatFeature, now: int) returns (mode: int, index: nat)
      requires Valid()
      modifies this, repr
      ensures Valid() && fresh(repr - old(repr)) && View() == AfterAsk(old(View()), key, c, v, now)
      ensures (mode, index) == Pick(Opened(old(View()), key, c, v, now).scores)
    {
      var r := Fetch(key, c, v, now);
      mode, index := Spend(key, now);
    }

    method GetRecommandBehaviors(key: string, c: NatFeature, v: NatFeature, now: int) returns (a: Advice)
      requires Valid()
      modifies this, repr
      ensures Valid() && fresh(repr - old(repr))
      ensures a == AdviceFor(old(View()), key, c, v, now) && View() == AfterAsk(old(View()), key, c, v, now)
    {
      var mode, index := Ask(key, c, v, now);
      a := AssignRoles(mode, index, c, v);
    }

    method ReportSuccess(key: string, mode: int, index: nat, now: int)
      requires Valid()
      modifies repr
      ensures Valid() && View() == AfterReport(old(View()), key, mode, index, now)
    {
      if key in records {
        records[key].ReportSuccess(mode, index, now);
      }
    }

    /** The loop of Clean. */
    method DropUnused(now: int) returns (count: nat)
      modifies this`records
      ensures records.Keys <= old(records).Keys && forall k | k in records :: records[k] == old(records)[k]
      ensures forall k | k in old(records) :: k in records <==> now - old(records)[k].lastUpdateTime <= reserve
      ensures count == |old(records)| - |records|
    {
      var keys := records.Keys;
      ghost var was := records;
      count := 0;
      while keys != {}
        invariant keys <= records.Keys <= was.Keys && count + |records| == |was|
        invariant forall k | k in records :: records[k] == was[k]
        invariant forall k | k in was && k !in keys :: k in records <==> now - was[k].lastUpdateTime <= reserve
        decreases keys
      {
        var k :| k in keys;
        if now - records[k].lastUpdateTime > reserve {
          OneLess(records, k);
          records := records - {k};
          count := count + 1;
        }
        keys := keys - {k};
      }
    }

    /** Clean: what was not used within the reserve goes, and is counted. */
    method Clean(now: int) returns (count: nat, total: nat)
      requires Valid()
      modifies this`records
      ensures Valid() && View() == AfterClean(old(View()), now, reserve)
      ensures total == |old(records)| && count == |old(records)| - |records|
    {
      total := |records|;
      count := DropUnused(now);
    }
  }
}

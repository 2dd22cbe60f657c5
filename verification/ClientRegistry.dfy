/** The registry of connected clients: records by client key, and an index from run id to key. */
module ClientRegistry {
  import opened Options

  datatype Info = Info(user: string, rawClientID: string, runID: string, online: bool,
                       first: int, last: int, disconnected: Option<int>)

  datatype State = State(clients: map<string, Info>, runIndex: map<string, string>)

  function ComposeKey(user: string, id: string): string {
    if user == "" then id else if id == "" then user else user + "." + id
  }

  function KeyOf(user: string, raw: string, runID: string): string {
    ComposeKey(user, if raw == "" then runID else raw)
  }

  /** The record is held by another session of the same client id. */
  predicate Conflicts(s: State, key: string, raw: string, runID: string) {
    raw != "" && key in s.clients && s.clients[key].online && s.clients[key].runID != "" && s.clients[key].runID != runID
  }

  /** The record after a login; a first time that was never set (zero) is set now. */
  function Renewed(i: Info, raw: string, runID: string, now: int): Info {
    i.(rawClientID := raw, runID := runID, online := true,
       first := if i.first == 0 then now else i.first, last := now, disconnected := None)
  }

  /** The record under a key is made or renewed, and the index follows it to the new run id. */
  function Stored(s: State, key: string, user: string, raw: string, runID: string, now: int): State {
    var was := if key in s.clients then s.clients[key] else Info(user, "", "", false, now, 0, None);
    var index := if was.runID != "" then s.runIndex - {was.runID} else s.runIndex;
    State(s.clients[key := Renewed(was, raw, runID, now)], index[runID := key])
  }

  /** ClientRegistry.Register. */
  function Registered(s: State, user: string, raw: string, runID: string, now: int): (State, string, bool) {
    var key := KeyOf(user, raw, runID);
    if runID == "" then (s, "", false)
    else if Conflicts(s, key, raw, runID) then (s, key, true)
    else (Stored(s, key, user, raw, runID, now), key, false)
  }

  /** MarkOfflineByRunID: a client without a client id of its own is forgotten, the others are kept as offline. */
  function MarkedOffline(s: State, runID: string, now: int): State {
    if runID !in s.runIndex then s
    else
      var key := s.runIndex[runID];
      var clients :=
        if key in s.clients && s.clients[key].runID == runID then
          if s.clients[key].rawClientID == "" then s.clients - {key}
          else s.clients[key := s.clients[key].(runID := "", online := false, disconnected := Some(now))]
        else s.clients;
      State(clients, s.runIndex - {runID})
  }

  datatype Op =
    | Register(user: string, raw: string, runID: string, now: int)
    | Offline(runID: string, now: int)

  function Apply(s: State, op: Op): State {
    match op
    case Register(user, raw, runID, now) => Registered(s, user, raw, runID, now).0
    case Offline(runID, now) => MarkedOffline(s, runID, now)
  }

  function Exec(s: State, ops: seq<Op>): State
    decreases |ops|
  {
    if ops == [] then s else Exec(Apply(s, ops[0]), ops[1..])
  }

  const EMPTY := State(map[], map[])

  // ---- what every run keeps ----

  predicate IndexOk(s: State, r: string)
    requires r in s.runIndex
  {
    r != "" && s.runIndex[r] in s.clients && s.clients[s.runIndex[r]].runID == r
  }

  predicate RecordOk(s: State, k: string)
    requires k in s.clients
  {
    var i := s.clients[k];
    && (i.online <==> i.runID != "") && (!i.online ==> i.rawClientID != "")
    && (i.online <==> i.disconnected.None?)
  }

  predicate Inv(s: State) {
    (forall r | r in s.runIndex :: IndexOk(s, r)) && (forall k | k in s.clients :: RecordOk(s, k))
  }

  lemma StepKeeps(s: State, op: Op)
    requires Inv(s)
    ensures Inv(Apply(s, op))
  {
    var s' := Apply(s, op);
    forall r | r in s'.runIndex ensures IndexOk(s', r) {
      assert r in s.runIndex ==> IndexOk(s, r);
    }
    forall k | k in s'.clients ensures RecordOk(s', k) {
      assert k in s.clients ==> RecordOk(s, k);
    }
  }

  lemma {:induction false} RunKeeps(s: State, ops: seq<Op>)
    requires Inv(s)
    ensures Inv(Exec(s, ops))
    decreases |ops|
  {
    if ops != [] {
      StepKeeps(s, ops[0]);
      RunKeeps(Apply(s, ops[0]), ops[1..]);
    }
  }

  /** After any run the index leads each run id to its own record, and no two to the same. */
  lemma IndexIsInjective(ops: seq<Op>, r: string, q: string)
    requires var s := Exec(EMPTY, ops);
             r in s.runIndex && q in s.runIndex
    ensures var s := Exec(EMPTY, ops);
            && Lookup(s.clients, s.runIndex[r]).Some? && s.clients[s.runIndex[r]].runID == r
            && (s.runIndex[r] == s.runIndex[q] ==> r == q)
  {
    RunKeeps(EMPTY, ops);
    assert IndexOk(Exec(EMPTY, ops), r) && IndexOk(Exec(EMPTY, ops), q);
  }

  /** After any run a record is online exactly while it has a run id, and offline only under a client id. */
  lemma OnlineIffRunID(ops: seq<Op>, k: string)
    requires k in Exec(EMPTY, ops).clients
    ensures var i := Exec(EMPTY, ops).clients[k];
            (i.online <==> i.runID != "") && (!i.online ==> i.rawClientID != "") && (i.online <==> i.disconnected.None?)
  {
    RunKeeps(EMPTY, ops);
    assert RecordOk(Exec(EMPTY, ops), k);
  }

  // ---- what each operation does ----

  /**
   What a login is told and leaves behind. It conflicts exactly when it has a client id whose record is online under
   another run id; otherwise the record is online under its run id, the index leads to it, and no other record changes.
   */
  lemma RegisterAnswers(s: State, user: string, raw: string, runID: string, now: int)
    requires runID != ""
    ensures var (s', key, conflict) := Registered(s, user, raw, runID, now);
            && key == ComposeKey(user, if raw != "" then raw else runID)
            && (conflict <==> raw != "" && key in s.clients && s.clients[key].online
                              && s.clients[key].runID != "" && s.clients[key].runID != runID)
            && (conflict ==> s' == s)
            && (!conflict ==>
                  && Lookup(s'.runIndex, runID) == Some(key) && key in s'.clients
                  && var i := s'.clients[key];
                  && i.online && i.runID == runID && i.rawClientID == raw && i.last == now && i.disconnected == None
                  && i.user == (if key in s.clients then s.clients[key].user else user)
                  && i.first == (if key in s.clients && s.clients[key].first != 0 then s.clients[key].first else now)
                  && s'.clients - {key} == s.clients - {key})
  {
  }

  /** Of the index, a login takes away the run id its record had and changes no other but its own. */
  lemma RegisterMovesIndex(s: State, user: string, raw: string, runID: string, now: int, r: string)
    requires Inv(s) && runID != "" && r != runID && !Registered(s, user, raw, runID, now).2
    ensures var key := KeyOf(user, raw, runID);
            Lookup(Registered(s, user, raw, runID, now).0.runIndex, r) ==
            if key in s.clients && s.clients[key].runID == r then None else Lookup(s.runIndex, r)
  {
    assert r in s.runIndex ==> IndexOk(s, r);
    var key := KeyOf(user, raw, runID);
    assert key in s.clients ==> RecordOk(s, key);
  }

  lemma RegisterNeedsRunID(s: State, user: string, raw: string, now: int)
    ensures Registered(s, user, raw, "", now) == (s, "", false)
  {
  }

  /** The record a run id leads to goes offline, or goes if it has no client id; the run id leads nowhere any more. */
  lemma OfflineMarks(s: State, runID: string, now: int)
    requires Inv(s)
    ensures var s' := MarkedOffline(s, runID, now);
            if runID in s.runIndex then
              var key := s.runIndex[runID];
              && s'.runIndex == s.runIndex - {runID} && s'.clients - {key} == s.clients - {key}
              && Lookup(s'.clients, key) ==
                 if s.clients[key].rawClientID == "" then None
                 else Some(s.clients[key].(runID := "", online := false, disconnected := Some(now)))
            else s' == s
  {
    assert runID in s.runIndex ==> IndexOk(s, runID);
  }

  // ---- what they do not keep: every online record being indexed ----

  predicate Indexed(s: State, k: string)
    requires k in s.clients
  {
    s.clients[k].runID != "" ==> Lookup(s.runIndex, s.clients[k].runID) == Some(k)
  }

  predicate AllIndexed(s: State) {
    forall k | k in s.clients :: Indexed(s, k)
  }

  /** A login leaves some online record unindexed exactly when its run id is indexed for another client. */
  lemma RegisterKeepsIndexed(s: State, user: string, raw: string, runID: string, now: int)
    requires Inv(s) && AllIndexed(s) && runID != "" && !Conflicts(s, KeyOf(user, raw, runID), raw, runID)
    ensures AllIndexed(Registered(s, user, raw, runID, now).0) <==>
            !(runID in s.runIndex && s.runIndex[runID] != KeyOf(user, raw, runID))
  {
    var s', key := Registered(s, user, raw, runID, now).0, KeyOf(user, raw, runID);
    if runID in s.runIndex && s.runIndex[runID] != key {
      assert IndexOk(s, runID);
      assert !Indexed(s', s.runIndex[runID]);
    } else {
      forall k | k in s'.clients ensures Indexed(s', k) {
        assert k in s.clients ==> Indexed(s, k);
        assert key in s.clients ==> Indexed(s, key);
      }
    }
  }

  lemma OfflineKeepsIndexed(s: State, runID: string, now: int)
    requires Inv(s) && AllIndexed(s)
    ensures AllIndexed(MarkedOffline(s, runID, now))
  {
    var s' := MarkedOffline(s, runID, now);
    assert runID in s.runIndex ==> IndexOk(s, runID);
    forall k | k in s'.clients ensures Indexed(s', k) {
      assert Indexed(s, k);
    }
  }

  /** A login under a run id that the index leads elsewhere with. */
  predicate Borrows(s: State, op: Op) {
    && op.Register? && op.runID != "" && op.runID in s.runIndex
    && s.runIndex[op.runID] != KeyOf(op.user, op.raw, op.runID)
    && !Conflicts(s, KeyOf(op.user, op.raw, op.runID), op.raw, op.runID)
  }

  predicate NoneBorrows(s: State, ops: seq<Op>)
    decreases |ops|
  {
    ops == [] || (!Borrows(s, ops[0]) && NoneBorrows(Apply(s, ops[0]), ops[1..]))
  }

  /** Runs without such a login keep every online record within reach of its run id. */
  lemma {:induction false} RunKeepsIndexed(s: State, ops: seq<Op>)
    requires Inv(s) && AllIndexed(s) && NoneBorrows(s, ops)
    ensures AllIndexed(Exec(s, ops))
    decreases |ops|
  {
    if ops != [] {
      var op := ops[0];
      StepKeeps(s, op);
      if op.Offline? {
        OfflineKeepsIndexed(s, op.runID, op.now);
      } else if op.runID != "" && !Conflicts(s, KeyOf(op.user, op.raw, op.runID), op.raw, op.runID) {
        RegisterKeepsIndexed(s, op.user, op.raw, op.runID, op.now);
      }
      RunKeepsIndexed(Apply(s, op), ops[1..]);
    }
  }

  /** An online record that no run id leads to. */
  predicate Stranded(s: State, k: string) {
    k in s.clients && s.clients[k].online && Lookup(s.runIndex, s.clients[k].runID) != Some(k)
  }

  /** Nobody registers as client k. */
  predicate Leaves(op: Op, k: string) {
    op.Register? ==> KeyOf(op.user, op.raw, op.runID) != k
  }

  /** It stays online whoever goes offline, and every login under its client id is refused but one of its own run id. */
  lemma {:induction false} StrandedStaysOnline(s: State, ops: seq<Op>, k: string)
    requires Inv(s) && Stranded(s, k) && forall i | 0 <= i < |ops| :: Leaves(ops[i], k)
    ensures Stranded(Exec(s, ops), k) && Exec(s, ops).clients[k] == s.clients[k]
    decreases |ops|
  {
    if ops != [] {
      var op := ops[0];
      StepKeeps(s, op);
      if op.Offline? && op.runID in s.runIndex {
        assert IndexOk(s, op.runID);
      }
      assert RecordOk(s, k);
      StrandedStaysOnline(Apply(s, op), ops[1..], k);
    }
  }

  lemma StrandedRefusesLogins(s: State, user: string, raw: string, runID: string, now: int)
    requires Inv(s) && raw != "" && runID != "" && Stranded(s, KeyOf(user, raw, runID))
    requires runID != s.clients[KeyOf(user, raw, runID)].runID
    ensures Registered(s, user, raw, runID, now) == (s, KeyOf(user, raw, runID), true)
  {
    assert RecordOk(s, KeyOf(user, raw, runID));
  }

  /** Two logins under one run id with different client ids, then its disconnect: the first client is stranded. */
  lemma StrandingRun()
    ensures var s := Exec(EMPTY, [Register("", "a", "r", 0), Register("", "b", "r", 1), Offline("r", 2)]);
            Stranded(s, "a") && "b" in s.clients && !s.clients["b"].online
  {
    var s1 := Apply(EMPTY, Register("", "a", "r", 0));
    assert s1 == State(map["a" := Info("", "a", "r", true, 0, 0, None)], map["r" := "a"]);
    var s2 := Apply(s1, Register("", "b", "r", 1));
    assert s2.clients == s1.clients["b" := Info("", "b", "r", true, 1, 1, None)] && s2.runIndex == map["r" := "b"];
    var ops := [Register("", "a", "r", 0), Register("", "b", "r", 1), Offline("r", 2)];
    assert ops[1..] == [Register("", "b", "r", 1), Offline("r", 2)] && ops[1..][1..] == [Offline("r", 2)];
    assert Exec(EMPTY, ops) == Exec(s1, ops[1..]) == Exec(s2, ops[1..][1..]) == Apply(s2, Offline("r", 2));
  }

  // ---- keys ----

  /** What a user name puts before a client id in its keys. */
  function Before(user: string): string {
    if user == "" then "" else user + "."
  }

  /** Keys of two users can only agree if what one puts before its ids starts with what the other does. */
  lemma AgreeingKeys(u: string, i: string, w: string, j: string)
    requires i != "" && j != "" && ComposeKey(u, i) == ComposeKey(w, j)
    ensures Before(u) <= Before(w) || Before(w) <= Before(u)
    ensures u == w ==> i == j
  {
    var key, p, q := ComposeKey(u, i), Before(u), Before(w);
    assert key[..|p|] == p && key[|p|..] == i && key[..|q|] == q && key[|q|..] == j;
    if |p| <= |q| {
      assert key[..|q|][..|p|] == key[..|p|];
    } else {
      assert key[..|p|][..|q|] == key[..|q|];
    }
  }

  /** And then some of them do. */
  lemma SharedKey(u: string, w: string) returns (i: string, j: string)
    requires u != w && Before(u) <= Before(w)
    ensures i != "" && j != "" && ComposeKey(u, i) == ComposeKey(w, j)
  {
    var p, q := Before(u), Before(w);
    i, j := q[|p|..] + "x", "x";
    assert q == p + q[|p|..];
    assert p + (q[|p|..] + "x") == q + "x";
  }

  /** Neither user is the empty one, and neither name with its dot starts the other. */
  predicate KeptApart(u: string, w: string) {
    u != "" && w != "" && !(u + "." <= w) && !(w + "." <= u)
  }

  lemma {:induction false} ApartMeans(u: string, w: string)
    requires u != w
    ensures KeptApart(u, w) <==> !(Before(u) <= Before(w)) && !(Before(w) <= Before(u))
  {
    if u != "" && w != "" {
      assert u + "." <= w ==> u + "." <= w + ".";
      assert w + "." <= u ==> w + "." <= u + ".";
      if u + "." <= w + "." && !(u + "." <= w) {
        assert |u| == |w| && (w + ".")[..|u|] == w && (u + ".")[..|u|] == u;
      }
      if w + "." <= u + "." && !(w + "." <= u) {
        assert |u| == |w| && (w + ".")[..|u|] == w && (u + ".")[..|u|] == u;
      }
    }
  }

  /** The keys of two users name user and client exactly when they are one user or kept apart. */
  lemma KeysNameTheirClient(u: string, w: string)
    ensures (forall i, j | i != "" && j != "" && ComposeKey(u, i) == ComposeKey(w, j) :: u == w && i == j) <==>
            u == w || KeptApart(u, w)
  {
    if u == w || KeptApart(u, w) {
      forall i, j | i != "" && j != "" && ComposeKey(u, i) == ComposeKey(w, j) ensures u == w && i == j {
        AgreeingKeys(u, i, w, j);
        if u != w {
          ApartMeans(u, w);
        }
      }
    } else {
      ApartMeans(u, w);
      if Before(u) <= Before(w) {
        var i, j := SharedKey(u, w);
      } else {
        var j, i := SharedKey(w, u);
      }
    }
  }

  /** A dot in a user name, or no user name, lets two clients share a record. */
  lemma ClientsCollide()
    ensures ComposeKey("a.b", "c") == ComposeKey("a", "b.c")
    ensures ComposeKey("", "a.b") == ComposeKey("a", "b")
  {
  }

  // ---- the registry ----

  class ClientInfo {
    const key: string
    var user: string
    var rawClientID: string
    var runID: string
    var online: bool
    var firstConnectedAt: int
    var lastConnectedAt: int
    var disconnectedAt: Option<int>

    constructor (key: string, user: string, now: int)
      ensures this.key == key && Value() == Info(user, "", "", false, now, 0, None)
    {
      this.key, this.user, firstConnectedAt := key, user, now;
      rawClientID, runID, online, lastConnectedAt, disconnectedAt := "", "", false, 0, None;
    }

    function Value(): Info
      reads this
    {
      Info(user, rawClientID, runID, online, firstConnectedAt, lastConnectedAt, disconnectedAt)
    }

    method Renew(rawClientID: string, runID: string, now: int)
      modifies this
      ensures Value() == Renewed(old(Value()), rawClientID, runID, now)
    {
      this.rawClientID := rawClientID;
      this.runID := runID;
      if firstConnectedAt == 0 {
        firstConnectedAt := now;
      }
      lastConnectedAt := now;
      disconnectedAt := None;
      online := true;
    }
  }

  class Registry {
    var clients: map<string, ClientInfo>
    var runIndex: map<string, string>
    ghost var repr: set<ClientInfo>

    /** Each record knows its key, so no two keys share one. */
    ghost predicate Valid()
      reads this, repr
    {
      forall k | k in clients :: clients[k] in repr && clients[k].key == k
    }

    ghost function View(): State
      reads this, repr
      requires Valid()
    {
      State(map k | k in clients :: clients[k].Value(), runIndex)
    }

    constructor ()
      ensures Valid() && View() == EMPTY
    {
      clients, runIndex, repr := map[], map[], {};
    }

    method Register(user: string, rawClientID: string, runID: string, now: int) returns (key: string, conflict: bool)
      requires Valid()
      modifies this, repr
      ensures Valid() && fresh(repr - old(repr))
      ensures (View(), key, conflict) == Registered(old(View()), user, rawClientID, runID, now)
    {
      if runID == "" {
        return "", false;
      }
      var effectiveID := rawClientID;
      if effectiveID == "" {
        effectiveID := runID;
      }
      key := ComposeKey(user, effectiveID);
      if rawClientID != "" && key in clients && clients[key].online && clients[key].runID != "" && clients[key].runID != runID {
        return key, true;
      }
      Store(key, user, rawClientID, runID, now);
      conflict := false;
    }

    /** The record under a key, made if there is none; the run id it had is no longer indexed. */
    method Fetch(key: string, user: string, now: int) returns (info: ClientInfo)
      requires Valid()
      modifies this
      ensures Valid() && fresh(repr - old(repr)) && clients == old(clients)[key := info]
      ensures if key in old(clients) then info == old(clients[key])
              else fresh(info) && info.Value() == Info(user, "", "", false, now, 0, None)
      ensures runIndex == if info.runID != "" then old(runIndex) - {info.runID} else old(runIndex)
    {
      if key !in clients {
        info := new ClientInfo(key, user, now);
        clients := clients[key := info];
        repr := repr + {info};
      } else {
        info := clients[key];
        if info.runID != "" {
          runIndex := runIndex - {info.runID};
        }
      }
    }

    method Store(key: string, user: string, rawClientID: string, runID: string, now: int)
      requires Valid()
      modifies this, repr
      ensures Valid() && fresh(repr - old(repr)) && View() == Stored(old(View()), key, user, rawClientID, runID, now)
    {
      var info := Fetch(key, user, now);
      info.Renew(rawClientID, runID, now);
      runIndex := runIndex[runID := key];
      ghost var stored := Stored(old(View()), key, user, rawClientID, runID, now).clients;
      assert stored.Keys == clients.Keys;
      forall k | k in clients ensures clients[k].Value() == stored[k] {
        assert k != key ==> clients[k].key == k && clients[k] != info;
      }
    }

    method MarkOfflineByRunID(runID: string, now: int)
      requires Valid()
      modifies this, repr
      ensures Valid() && repr == old(repr) && View() == MarkedOffline(old(View()), runID, now)
    {
      if runID !in runIndex {
        return;
      }
      var key := runIndex[runID];
      if key in clients && clients[key].runID == runID {
        var info := clients[key];
        if info.rawClientID == "" {
          clients := clients - {key};
        } else {
          info.runID := "";
          info.online := false;
          info.disconnectedAt := Some(now);
        }
      }
      runIndex := runIndex - {runID};
      assert View().clients == MarkedOffline(old(View()), runID, now).clients;
    }
  }
}

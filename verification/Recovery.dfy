/** Crash recovery: snapshot plus replayed log against the live bridge, whatever happens to the log. */
module Recovery {
  import opened ByteStrings
  import opened Hex
  import opened Bridge

  /** What is on disk: the last checkpoint, if any, and the operations logged since. */
  datatype Disk = Disk(state: Option<Snapshot>, log: seq<Op>)

  /** Random keys drawn while restoring a snapshot and while replaying the log. */
  datatype Draws = Draws(restoring: nat -> EdgeKey, replaying: nat -> EdgeKey)

  /** The startup path: a fresh bridge under our original uid, the snapshot over it, then the log. */
  function Recovered(origin: Uid, disk: Disk, r: Draws): State {
    var base := match disk.state case None => Empty(origin) case Some(snap) => Restored(snap, r.restoring);
    Replay(base, disk.log, r.replaying)
  }

  // ---- Agreement ----

  ghost predicate SameFriend(f: Friend, g: Friend, pinned: bool) {
    f.addr == g.addr && f.trust == g.trust && (pinned ==> f.key == g.key)
  }

  /** Equal except for the keys of friends outside `pinned`. */
  ghost predicate Agree(pinned: set<Uid>, a: State, b: State) {
    && a.uid == b.uid && a.channels == b.channels && a.friends.Keys == b.friends.Keys
    && forall u :: u in a.friends ==> SameFriend(a.friends[u], b.friends[u], u in pinned)
  }

  /** Friends whose key was set since they were last added, or is in the snapshot. */
  function PinnedAfter(pinned: set<Uid>, b: State, call: Call): set<Uid> {
    match call
    case CallAddFriend(uid, _, _, _) => pinned - {uid}
    case CallSetEdgeKey(uid, _) => if uid in b.friends then pinned + {uid} else pinned
    case _ => pinned
  }

  lemma JoinAgrees(pinned: set<Uid>, a: State, b: State, channel: Name, uid: Uid)
    requires Agree(pinned, a, b)
    ensures Agree(pinned, WithMember(a, channel, uid), WithMember(b, channel, uid))
  {
    assert Joins(a, channel, uid) <==> Joins(b, channel, uid);
  }

  /** The one operation of a call other than a join, applied to a state that agrees. */
  lemma OpAgrees(pinned: set<Uid>, a: State, b: State, call: Call, key: EdgeKey)
    requires Agree(pinned, a, b) && !call.CallJoinChannel? && |Logged(a, call)| == 1
    ensures Agree(PinnedAfter(pinned, a, call), Performed(a, call), ApplyOp(b, Logged(a, call)[0], key))
  {
    if call.CallSetEdgeKey? {
      KeyRoundTrip(call.key);
    }
  }

  lemma UnloggedCall(pinned: set<Uid>, a: State, call: Call)
    requires !call.CallJoinChannel? && |Logged(a, call)| != 1
    ensures Logged(a, call) == [] && Performed(a, call) == a && PinnedAfter(pinned, a, call) == pinned
  {
  }

  /** Participants who are already in, and strangers, cannot join later in the same call either. */
  lemma {:induction false} JoinsOnly(b: State, channel: Name, uids: seq<Uid>)
    ensures WithMembers(b, channel, uids).friends == b.friends && WithMembers(b, channel, uids).uid == b.uid
    ensures WithMembers(b, channel, uids).channels.Keys == b.channels.Keys
    ensures channel in b.channels ==>
              forall u :: u in b.channels[channel].participants ==> u in WithMembers(b, channel, uids).channels[channel].participants
  {
    if uids != [] {
      JoinsOnly(b, channel, uids[..|uids| - 1]);
    }
  }

  lemma NotLoggedNoJoin(a: State, channel: Name, uids: seq<Uid>, uid: Uid)
    requires !LogsJoin(a, channel, uid)
    ensures WithMember(WithMembers(a, channel, uids), channel, uid) == WithMembers(a, channel, uids)
  {
    JoinsOnly(a, channel, uids);
  }

  lemma ReplayAppend(base: State, log: seq<Op>, op: Op, random: nat -> EdgeKey)
    ensures Replay(base, log + [op], random) == ApplyOp(Replay(base, log, random), op, random(|log|))
  {
    assert (log + [op])[..|log|] == log;
  }

  lemma NextJoinAgrees(pinned: set<Uid>, a: State, base: State, log: seq<Op>, random: nat -> EdgeKey, channel: Name, uids: seq<Uid>, uid: Uid, live: State)
    requires live == WithMembers(a, channel, uids) && Agree(pinned, live, Replay(base, log, random))
    ensures Agree(pinned, WithMember(live, channel, uid),
                  Replay(base, log + if LogsJoin(a, channel, uid) then [JoinChannel(channel, uid)] else [], random))
  {
    if LogsJoin(a, channel, uid) {
      ReplayAppend(base, log, JoinChannel(channel, uid), random);
      JoinAgrees(pinned, live, Replay(base, log, random), channel, uid);
    } else {
      assert log + [] == log;
      NotLoggedNoJoin(a, channel, uids, uid);
    }
  }

  /** Replaying the logged joins has the effect of the whole call. */
  lemma {:induction false} JoinsAgree(pinned: set<Uid>, a: State, base: State, log: seq<Op>, random: nat -> EdgeKey, channel: Name, uids: seq<Uid>)
    requires Agree(pinned, a, Replay(base, log, random))
    ensures Agree(pinned, WithMembers(a, channel, uids), Replay(base, log + LoggedJoins(a, channel, uids), random))
    decreases |uids|
  {
    if uids == [] {
      assert log + [] == log;
    } else {
      var k := |uids| - 1;
      var before := LoggedJoins(a, channel, uids[..k]);
      var more := if LogsJoin(a, channel, uids[k]) then [JoinChannel(channel, uids[k])] else [];
      JoinsAgree(pinned, a, base, log, random, channel, uids[..k]);
      NextJoinAgrees(pinned, a, base, log + before, random, channel, uids[..k], uids[k], WithMembers(a, channel, uids[..k]));
      assert log + before + more == log + LoggedJoins(a, channel, uids);
    }
  }

  /** A call and the replay of what it logged keep live and replayed state in agreement. */
  lemma CallAgrees(pinned: set<Uid>, a: State, base: State, log: seq<Op>, random: nat -> EdgeKey, call: Call)
    requires Agree(pinned, a, Replay(base, log, random))
    ensures Agree(PinnedAfter(pinned, a, call), Performed(a, call), Replay(base, log + Logged(a, call), random))
  {
    if call.CallJoinChannel? {
      JoinsAgree(pinned, a, base, log, random, call.channel, call.uids);
    } else if |Logged(a, call)| == 1 {
      assert log + Logged(a, call) == log + [Logged(a, call)[0]];
      ReplayAppend(base, log, Logged(a, call)[0], random);
      OpAgrees(pinned, a, Replay(base, log, random), call, random(|log|));
    } else {
      UnloggedCall(pinned, a, call);
      assert log + [] == log;
    }
  }

  // ---- Logging under arbitrary conditions ----

  /** How the outside world behaves while one operation is logged. */
  datatype Weather = Weather(appends: bool, timerDue: bool, checkpoints: bool, order: Order)

  ghost predicate Fair(w: nat -> Weather) {
    forall i :: IsOrder(w(i).order)
  }

  /** A checkpoint is due, by count or by time, and can be written. */
  predicate Checkpointing(pending: nat, limit: nat, x: Weather) {
    (pending >= limit || x.timerDue) && x.checkpoints
  }

  /** What logging one operation leaves on disk; `b` is the state before the operation takes effect. */
  ghost function LogOne(d: Disk, pending: nat, limit: nat, b: State, op: Op, x: Weather): (Disk, nat)
    requires IsOrder(x.order)
  {
    var d1 := if x.appends then d.(log := d.log + [op]) else d;
    var pending1 := if x.appends then pending + 1 else pending;
    if Checkpointing(pending1, limit, x) then (Disk(Some(SnapshotOf(b, x.order)), []), 0) else (d1, pending1)
  }

  ghost function LogAll(d: Disk, pending: nat, limit: nat, b: State, ops: seq<Op>, w: nat -> Weather): (Disk, nat)
    requires Fair(w)
  {
    if ops == [] then (d, pending)
    else
      var k := |ops| - 1;
      var (d1, p1) := LogAll(d, pending, limit, b, ops[..k], w);
      LogOne(d1, p1, limit, b, ops[k], w(k))
  }

  lemma LogOneMore(d: Disk, pending: nat, limit: nat, b: State, ops: seq<Op>, op: Op, w: nat -> Weather)
    requires Fair(w)
    ensures var (d1, p1) := LogAll(d, pending, limit, b, ops, w);
            LogAll(d, pending, limit, b, ops + [op], w) == LogOne(d1, p1, limit, b, op, w(|ops|))
  {
    assert (ops + [op])[..|ops|] == ops;
  }

  /** What becomes of a call's operations: whether a checkpoint fell among them, and which are in the log. */
  datatype Fate = Fate(checkpointed: bool, kept: seq<Op>, pending: nat)

  function FateOf(ops: seq<Op>, pending: nat, limit: nat, w: nat -> Weather): Fate {
    if ops == [] then Fate(false, [], pending)
    else
      var k := |ops| - 1;
      var f := FateOf(ops[..k], pending, limit, w);
      var pending1 := if w(k).appends then f.pending + 1 else f.pending;
      if Checkpointing(pending1, limit, w(k)) then Fate(true, [], 0)
      else Fate(f.checkpointed, f.kept + if w(k).appends then [ops[k]] else [], pending1)
  }

  /** The disk after a call: the old log or a snapshot of the state before the call, plus what was kept. */
  lemma {:induction false} FateOnDisk(d: Disk, pending: nat, limit: nat, b: State, ops: seq<Op>, w: nat -> Weather)
    requires Fair(w)
    ensures var f, (d', p') := FateOf(ops, pending, limit, w), LogAll(d, pending, limit, b, ops, w);
            && p' == f.pending
            && if f.checkpointed then exists order :: IsOrder(order) && d' == Disk(Some(SnapshotOf(b, order)), f.kept)
               else d' == d.(log := d.log + f.kept)
  {
    if ops == [] {
      assert d.log + [] == d.log;
    } else {
      var k := |ops| - 1;
      FateOnDisk(d, pending, limit, b, ops[..k], w);
      var f := FateOf(ops[..k], pending, limit, w);
      assert f.kept + [] == f.kept && d.log + f.kept + [ops[k]] == d.log + (f.kept + [ops[k]]);
    }
  }

  lemma {:induction false} KeptWereLogged(ops: seq<Op>, pending: nat, limit: nat, w: nat -> Weather, op: Op)
    ensures op in FateOf(ops, pending, limit, w).kept ==> op in ops
    ensures |FateOf(ops, pending, limit, w).kept| <= |ops|
  {
    if ops != [] {
      KeptWereLogged(ops[..|ops| - 1], pending, limit, w, op);
    }
  }

  // ---- Where recovered keys come from ----

  datatype Source = Known(key: EdgeKey) | DrawnRestoring(k: nat) | DrawnReplaying(k: nat)

  function KeyFrom(source: Source, r: Draws): EdgeKey {
    match source
    case Known(key) => key
    case DrawnRestoring(k) => r.restoring(k)
    case DrawnReplaying(k) => r.replaying(k)
  }

  function RestoredSources(fs: seq<FriendRecord>): map<Uid, Source> {
    if fs == [] then map[]
    else
      var k := |fs| - 1;
      var stored := if fs[k].keyHex.Some? then KeyFromHex(fs[k].keyHex.value) else None;
      RestoredSources(fs[..k])[fs[k].uid := if stored.Some? then Known(stored.value) else DrawnRestoring(k)]
  }

  function SourceStep(sources: map<Uid, Source>, op: Op, k: nat): map<Uid, Source> {
    match op
    case AddFriend(uid, _, _) => sources[uid := DrawnReplaying(k)]
    case RemoveFriend(uid) => sources - {uid}
    case UpdateEdgeKey(uid, keyHex) =>
      if KeyFromHex(keyHex).Some? && uid in sources then sources[uid := Known(KeyFromHex(keyHex).value)] else sources
    case _ => sources
  }

  function ReplayedSources(base: map<Uid, Source>, log: seq<Op>): map<Uid, Source> {
    if log == [] then base
    else
      var k := |log| - 1;
      SourceStep(ReplayedSources(base, log[..k]), log[k], k)
  }

  /** Where recovery from this disk will take each friend's key from. */
  function Sources(disk: Disk): map<Uid, Source> {
    ReplayedSources(match disk.state case None => map[] case Some(snap) => RestoredSources(snap.friends), disk.log)
  }

  ghost predicate KeysFrom(sources: map<Uid, Source>, friends: map<Uid, Friend>, r: Draws) {
    sources.Keys == friends.Keys && forall u :: u in friends ==> friends[u].key == KeyFrom(sources[u], r)
  }

  lemma {:induction false} RestoredSourcesRight(fs: seq<FriendRecord>, r: Draws)
    ensures KeysFrom(RestoredSources(fs), RestoredFriends(fs, r.restoring), r)
  {
    if fs != [] {
      RestoredSourcesRight(fs[..|fs| - 1], r);
    }
  }

  lemma SourceStepRight(sources: map<Uid, Source>, b: State, op: Op, k: nat, r: Draws)
    requires KeysFrom(sources, b.friends, r)
    ensures KeysFrom(SourceStep(sources, op, k), ApplyOp(b, op, r.replaying(k)).friends, r)
  {
  }

  lemma {:induction false} ReplayedSourcesRight(sources: map<Uid, Source>, base: State, log: seq<Op>, r: Draws)
    requires KeysFrom(sources, base.friends, r)
    ensures KeysFrom(ReplayedSources(sources, log), Replay(base, log, r.replaying).friends, r)
  {
    if log != [] {
      var k := |log| - 1;
      ReplayedSourcesRight(sources, base, log[..k], r);
      SourceStepRight(ReplayedSources(sources, log[..k]), Replay(base, log[..k], r.replaying), log[k], k, r);
    }
  }

  lemma SourcesRight(origin: Uid, disk: Disk, r: Draws)
    ensures KeysFrom(Sources(disk), Recovered(origin, disk, r).friends, r)
  {
    match disk.state
    case None => ReplayedSourcesRight(map[], Empty(origin), disk.log, r);
    case Some(snap) =>
      RestoredSourcesRight(snap.friends, r);
      ReplayedSourcesRight(RestoredSources(snap.friends), Restored(snap, r.restoring), disk.log, r);
  }

  /** Recovery finds a given key whatever it draws, if and only if the disk says so. */
  lemma KeyCertainIff(origin: Uid, disk: Disk, uid: Uid, key: EdgeKey)
    requires uid in Sources(disk)
    ensures (forall r :: uid in Recovered(origin, disk, r).friends && Recovered(origin, disk, r).friends[uid].key == key)
       <==> Sources(disk)[uid] == Known(key)
  {
    forall r ensures KeysFrom(Sources(disk), Recovered(origin, disk, r).friends, r) {
      SourcesRight(origin, disk, r);
    }
    if Sources(disk)[uid] != Known(key) {
      var one := Zeros(31) + [1];
      assert one[31] == 1;
      var other: EdgeKey := if key == Zeros(32) then one else Zeros(32);
      var r := Draws(_ => other, _ => other);
      assert KeysFrom(Sources(disk), Recovered(origin, disk, r).friends, r);
      assert KeyFrom(Sources(disk)[uid], r) != key;
    }
  }

  // ---- Joins in terms of newcomers ----

  /** Those among `uids` whom a join brings in, in order of first mention. */
  function Newcomers(b: State, channel: Name, uids: seq<Uid>): (r: seq<Uid>)
    ensures forall u :: u in r <==> u in uids && Joins(b, channel, u)
  {
    if uids == [] then []
    else
      var k := |uids| - 1;
      var before := Newcomers(b, channel, uids[..k]);
      assert uids == uids[..k] + [uids[k]];
      if Joins(b, channel, uids[k]) && uids[k] !in before then before + [uids[k]] else before
  }

  function WithParticipants(b: State, channel: Name, more: seq<Uid>): State {
    if channel in b.channels then
      b.(channels := b.channels[channel := b.channels[channel].(participants := b.channels[channel].participants + more)])
    else b
  }

  lemma {:induction false} MembersAreNewcomers(b: State, channel: Name, uids: seq<Uid>)
    ensures WithMembers(b, channel, uids) == WithParticipants(b, channel, Newcomers(b, channel, uids))
  {
    if uids == [] {
      if channel in b.channels {
        assert b.channels[channel].participants + [] == b.channels[channel].participants;
        assert b.channels[channel := b.channels[channel]] == b.channels;
      }
    } else {
      var k := |uids| - 1;
      MembersAreNewcomers(b, channel, uids[..k]);
      OneMoreMember(b, channel, Newcomers(b, channel, uids[..k]), uids[k]);
    }
  }

  lemma OneMoreMember(b: State, channel: Name, before: seq<Uid>, uid: Uid)
    ensures WithMember(WithParticipants(b, channel, before), channel, uid) ==
            WithParticipants(b, channel, if Joins(b, channel, uid) && uid !in before then before + [uid] else before)
  {
    if channel in b.channels {
      var ps := b.channels[channel].participants;
      assert ps + before + [uid] == ps + (before + [uid]);
      assert WithParticipants(b, channel, before).channels[channel := Channel(b.channels[channel].topic, ps + before + [uid])] ==
             b.channels[channel := Channel(b.channels[channel].topic, ps + before + [uid])];
    }
  }

  lemma {:induction false} NobodyWithoutChannel(b: State, channel: Name, uids: seq<Uid>)
    requires channel !in b.channels
    ensures Newcomers(b, channel, uids) == []
  {
    if uids != [] {
      NobodyWithoutChannel(b, channel, uids[..|uids| - 1]);
    }
  }

  lemma SameNewcomers(b: State, channel: Name, us: seq<Uid>, vs: seq<Uid>)
    ensures WithMembers(b, channel, us).channels == WithMembers(b, channel, vs).channels <==>
            Newcomers(b, channel, us) == Newcomers(b, channel, vs)
  {
    MembersAreNewcomers(b, channel, us);
    MembersAreNewcomers(b, channel, vs);
    var n, m := Newcomers(b, channel, us), Newcomers(b, channel, vs);
    if channel in b.channels {
      var ps := b.channels[channel].participants;
      assert (ps + n)[|ps|..] == n && (ps + m)[|ps|..] == m;
      assert WithParticipants(b, channel, n).channels[channel].participants == ps + n;
      assert WithParticipants(b, channel, m).channels[channel].participants == ps + m;
    } else {
      NobodyWithoutChannel(b, channel, us);
      NobodyWithoutChannel(b, channel, vs);
    }
  }

  function JoinedBy(ops: seq<Op>): seq<Uid> {
    if ops == [] then []
    else
      var k := |ops| - 1;
      JoinedBy(ops[..k]) + if ops[k].JoinChannel? then [ops[k].uid] else []
  }

  ghost predicate AllJoin(ops: seq<Op>, channel: Name) {
    forall op :: op in ops ==> op.JoinChannel? && op.channel == channel
  }

  lemma {:induction false} LoggedJoinsJoin(b: State, channel: Name, uids: seq<Uid>)
    ensures AllJoin(LoggedJoins(b, channel, uids), channel)
  {
    if uids != [] {
      LoggedJoinsJoin(b, channel, uids[..|uids| - 1]);
    }
  }

  lemma JoinedByLast(a: State, channel: Name, ops: seq<Op>, k: nat)
    requires k + 1 == |ops| && ops[k].JoinChannel?
    ensures WithMembers(a, channel, JoinedBy(ops)) == WithMember(WithMembers(a, channel, JoinedBy(ops[..k])), channel, ops[k].uid)
  {
    assert JoinedBy(ops)[..|JoinedBy(ops)| - 1] == JoinedBy(ops[..k]);
  }

  /** Replaying some joins brings in those that they name. */
  lemma {:induction false} ReplayedJoins(pinned: set<Uid>, a: State, base: State, log: seq<Op>, random: nat -> EdgeKey, channel: Name, ops: seq<Op>)
    requires Agree(pinned, a, Replay(base, log, random)) && AllJoin(ops, channel)
    ensures Agree(pinned, WithMembers(a, channel, JoinedBy(ops)), Replay(base, log + ops, random))
    decreases |ops|
  {
    if ops == [] {
      assert log + [] == log;
    } else {
      var k := |ops| - 1;
      assert ops[k] in ops && forall op :: op in ops[..k] ==> op in ops;
      ReplayedJoins(pinned, a, base, log, random, channel, ops[..k]);
      JoinedByLast(a, channel, ops, k);
      assert log + ops == log + ops[..k] + [ops[k]];
      ReplayedJoin(pinned, WithMembers(a, channel, JoinedBy(ops[..k])), base, log + ops[..k], random, channel, ops[k]);
    }
  }

  lemma ReplayedJoin(pinned: set<Uid>, live: State, base: State, log: seq<Op>, random: nat -> EdgeKey, channel: Name, op: Op)
    requires Agree(pinned, live, Replay(base, log, random)) && op.JoinChannel? && op.channel == channel
    ensures Agree(pinned, WithMember(live, channel, op.uid), Replay(base, log + [op], random))
  {
    ReplayAppend(base, log, op, random);
    JoinAgrees(pinned, live, Replay(base, log, random), channel, op.uid);
  }

  // ---- Runs ----

  /** The live bridge and its disk; recovery starts from `origin`, checkpoints fall due at `limit` operations. */
  datatype World = World(origin: Uid, limit: nat, live: State, disk: Disk, pending: nat, pinned: set<Uid>)

  function Start(origin: Uid, limit: nat): World {
    World(origin, limit, Empty(origin), Disk(None, []), 0, {})
  }

  /** A logged call in some weather, a forced checkpoint that may fail, or a crash followed by a restart. */
  datatype Event =
    | Calls(call: Call, weather: nat -> Weather)
    | Checkpoints(order: Order, written: bool)
    | Restarts(draws: Draws)

  ghost predicate EventOk(e: Event) {
    && (e.Calls? ==> Fair(e.weather))
    && (e.Checkpoints? ==> IsOrder(e.order))
  }

  function CallFate(w: World, call: Call, weather: nat -> Weather): Fate {
    FateOf(Logged(w.live, call), w.pending, w.limit, weather)
  }

  /** Keys known to recovery before the call's own operations are replayed. */
  function PinnedBefore(w: World, f: Fate): set<Uid> {
    if f.checkpointed then w.live.friends.Keys else w.pinned
  }

  ghost function Happens(w: World, e: Event): World
    requires EventOk(e)
  {
    match e
    case Calls(call, weather) =>
      var (disk, pending) := LogAll(w.disk, w.pending, w.limit, w.live, Logged(w.live, call), weather);
      w.(live := Performed(w.live, call), disk := disk, pending := pending,
         pinned := PinnedAfter(PinnedBefore(w, CallFate(w, call, weather)), w.live, call))
    case Checkpoints(order, written) =>
      if written then w.(disk := Disk(Some(SnapshotOf(w.live, order)), []), pending := 0, pinned := w.live.friends.Keys) else w
    case Restarts(draws) => w.(live := Recovered(w.origin, w.disk, draws), pending := 0)
  }

  /** Whatever keys recovery draws, it yields the live state up to unpinned keys. */
  ghost predicate Recoverable(w: World) {
    forall r :: Agree(w.pinned, w.live, Recovered(w.origin, w.disk, r))
  }

  // ---- When a call survives ----

  /** The call would leave the state as it is, apart from a key redrawn for a friend added again. */
  predicate NoEffect(b: State, call: Call) {
    match call
    case CallAddFriend(uid, addr, trust, _) => uid in b.friends && b.friends[uid].addr == addr && b.friends[uid].trust == Capped(trust)
    case CallRemoveFriend(uid) => uid !in b.friends
    case CallUpdateTrust(uid, trust) => uid in b.friends ==> b.friends[uid].trust == Capped(trust)
    case CallSetEdgeKey(uid, key) => uid in b.friends ==> b.friends[uid].key == key
    case CallCreateChannel(name) => name in b.channels
    case CallJoinChannel(channel, uids) => forall u :: u in uids ==> !Joins(b, channel, u)
    case CallLeaveChannel(channel) => channel in b.channels ==> b.uid !in b.channels[channel].participants
    case CallSetUid(uid) => uid == b.uid
  }

  /** A key that was to be set is the one recovery will find anyway. */
  predicate KeyOnDisk(w: World, f: Fate, uid: Uid, key: EdgeKey) {
    if f.checkpointed then uid in w.live.friends && w.live.friends[uid].key == key
    else uid in Sources(w.disk) && Sources(w.disk)[uid] == Known(key)
  }

  /**
   * All of the call's operations are in the log, or those that are not make no difference:
   * a single one without effect, or joins without which the same people come in, in the same order.
   */
  predicate Safe(w: World, call: Call, f: Fate) {
    || f.kept == Logged(w.live, call)
    || match call
       case CallJoinChannel(channel, uids) => Newcomers(w.live, channel, JoinedBy(f.kept)) == Newcomers(w.live, channel, uids)
       case CallSetEdgeKey(uid, key) => KeyOnDisk(w, f, uid, key)
       case _ => NoEffect(w.live, call)
  }

  lemma {:induction false} WithoutAbsent(list: seq<Uid>, uid: Uid)
    ensures Without(list, uid) == list <==> uid !in list
    ensures |Without(list, uid)| <= |list| && (uid in list ==> |Without(list, uid)| < |list|)
  {
    if list != [] {
      var k := |list| - 1;
      assert list == list[..k] + [list[k]];
      WithoutAbsent(list[..k], uid);
    }
  }

  /** A state `c` that agreed before the call still does after it, without having seen it, exactly when the call had no effect. */
  lemma EffectShows(pinned: set<Uid>, b: State, c: State, call: Call)
    requires Agree(pinned, b, c) && !call.CallJoinChannel? && |Logged(b, call)| == 1
    ensures Agree(PinnedAfter(pinned, b, call), Performed(b, call), c) <==>
            if call.CallSetEdgeKey? then c.friends[call.uid].key == call.key else NoEffect(b, call)
  {
    if call.CallLeaveChannel? && call.channel in b.channels {
      WithoutAbsent(b.channels[call.channel].participants, b.uid);
    }
  }

  /** What recovery replays the kept operations on: a state that agrees with the one before the call. */
  lemma RecoveredAfter(w: World, call: Call, weather: nat -> Weather, r: Draws) returns (base: State, log: seq<Op>)
    requires Fair(weather) && Agree(w.pinned, w.live, Recovered(w.origin, w.disk, r))
    ensures var f, w' := CallFate(w, call, weather), Happens(w, Calls(call, weather));
            && Recovered(w.origin, w'.disk, r) == Replay(base, log + f.kept, r.replaying)
            && Agree(PinnedBefore(w, f), w.live, Replay(base, log, r.replaying))
            && Replay(base, log, r.replaying) == if f.checkpointed then w.live else Recovered(w.origin, w.disk, r)
  {
    var f := CallFate(w, call, weather);
    FateOnDisk(w.disk, w.pending, w.limit, w.live, Logged(w.live, call), weather);
    if f.checkpointed {
      var order :| IsOrder(order) && Happens(w, Calls(call, weather)).disk == Disk(Some(SnapshotOf(w.live, order)), f.kept);
      SnapshotRoundTrip(w.live, order, r.restoring);
      base, log := w.live, [];
      assert [] + f.kept == f.kept;
    } else {
      base := match w.disk.state case None => Empty(w.origin) case Some(snap) => Restored(snap, r.restoring);
      log := w.disk.log;
    }
  }

  ghost function Found(w: World, f: Fate, r: Draws): State {
    if f.checkpointed then w.live else Recovered(w.origin, w.disk, r)
  }

  /** For given draws, a lost SetEdgeKey is harmless when the key is found anyway. */
  predicate SafeFor(w: World, call: Call, f: Fate, found: State) {
    if call.CallSetEdgeKey? && f.kept != Logged(w.live, call) then call.uid in found.friends && found.friends[call.uid].key == call.key
    else Safe(w, call, f)
  }

  lemma CallOutcome(w: World, call: Call, weather: nat -> Weather, f: Fate, base: State, log: seq<Op>, random: nat -> EdgeKey)
    requires f == CallFate(w, call, weather) && Agree(PinnedBefore(w, f), w.live, Replay(base, log, random))
    ensures Agree(PinnedAfter(PinnedBefore(w, f), w.live, call), Performed(w.live, call), Replay(base, log + f.kept, random)) <==>
            SafeFor(w, call, f, Replay(base, log, random))
  {
    if f.kept == Logged(w.live, call) {
      CallAgrees(PinnedBefore(w, f), w.live, base, log, random, call);
    } else if call.CallJoinChannel? {
      JoinOutcome(w, call, weather, f, base, log, random);
    } else {
      LostOutcome(w, call, weather, f);
      assert log + [] == log;
      EffectShows(PinnedBefore(w, f), w.live, Replay(base, log, random), call);
    }
  }

  lemma LostOutcome(w: World, call: Call, weather: nat -> Weather, f: Fate)
    requires f == CallFate(w, call, weather) && f.kept != Logged(w.live, call) && !call.CallJoinChannel?
    ensures f.kept == [] && |Logged(w.live, call)| == 1
  {
    KeptOfOne(Logged(w.live, call), w.pending, w.limit, weather);
  }

  lemma KeptOfOne(ops: seq<Op>, pending: nat, limit: nat, w: nat -> Weather)
    requires |ops| <= 1
    ensures FateOf(ops, pending, limit, w).kept == [] || FateOf(ops, pending, limit, w).kept == ops
  {
    if |ops| == 1 {
      assert ops[..0] == [] && [] + [ops[0]] == ops;
    }
  }

  lemma JoinOutcome(w: World, call: Call, weather: nat -> Weather, f: Fate, base: State, log: seq<Op>, random: nat -> EdgeKey)
    requires f == CallFate(w, call, weather) && call.CallJoinChannel?
    requires Agree(PinnedBefore(w, f), w.live, Replay(base, log, random))
    ensures Agree(PinnedBefore(w, f), Performed(w.live, call), Replay(base, log + f.kept, random)) <==>
            Newcomers(w.live, call.channel, JoinedBy(f.kept)) == Newcomers(w.live, call.channel, call.uids)
  {
    var channel, kept := call.channel, JoinedBy(f.kept);
    forall op | op in f.kept ensures op.JoinChannel? && op.channel == channel {
      KeptWereLogged(Logged(w.live, call), w.pending, w.limit, weather, op);
      LoggedJoinsJoin(w.live, channel, call.uids);
    }
    ReplayedJoins(PinnedBefore(w, f), w.live, base, log, random, channel, f.kept);
    SameNewcomers(w.live, channel, kept, call.uids);
    JoinsOnly(w.live, channel, kept);
    JoinsOnly(w.live, channel, call.uids);
  }

  /**
   * From a recoverable world, whichever appends fail and whenever checkpoints fall due while
   * the call is logged, the world is recoverable afterwards if and only if the call was safe.
   */
  lemma CallRecoverableIff(w: World, call: Call, weather: nat -> Weather)
    requires Recoverable(w) && Fair(weather)
    ensures Recoverable(Happens(w, Calls(call, weather))) <==> Safe(w, call, CallFate(w, call, weather))
  {
    var f, w' := CallFate(w, call, weather), Happens(w, Calls(call, weather));
    forall r ensures Agree(w'.pinned, w'.live, Recovered(w.origin, w'.disk, r)) <==>
                     SafeFor(w, call, f, Found(w, f, r)) {
      assert Agree(w.pinned, w.live, Recovered(w.origin, w.disk, r));
      var base, log := RecoveredAfter(w, call, weather, r);
      CallOutcome(w, call, weather, f, base, log, r.replaying);
    }
    SafeForAll(w, call, f);
  }

  lemma SafeForAll(w: World, call: Call, f: Fate)
    requires Recoverable(w)
    ensures (forall r :: SafeFor(w, call, f, Found(w, f, r))) <==> Safe(w, call, f)
  {
    var r0 := Draws(_ => Zeros(32), _ => Zeros(32));
    assert (forall r :: SafeFor(w, call, f, Found(w, f, r))) ==> SafeFor(w, call, f, Found(w, f, r0));
    if call.CallSetEdgeKey? && f.kept != Logged(w.live, call) && !f.checkpointed {
      SourcesRight(w.origin, w.disk, r0);
      if call.uid in Sources(w.disk) {
        KeyCertainIff(w.origin, w.disk, call.uid, call.key);
        assert forall r :: Found(w, f, r) == Recovered(w.origin, w.disk, r);
        assert (forall r :: SafeFor(w, call, f, Found(w, f, r))) <==>
               forall r :: call.uid in Recovered(w.origin, w.disk, r).friends && Recovered(w.origin, w.disk, r).friends[call.uid].key == call.key;
      }
    }
  }

  // ---- All runs ----

  /** Only a call can be unsafe. */
  ghost predicate SafeEvent(w: World, e: Event) {
    e.Calls? ==> Safe(w, e.call, CallFate(w, e.call, e.weather))
  }

  lemma EventRecoverableIff(w: World, e: Event)
    requires Recoverable(w) && EventOk(e)
    ensures Recoverable(Happens(w, e)) <==> SafeEvent(w, e)
  {
    var w' := Happens(w, e);
    match e
    case Calls(call, weather) => CallRecoverableIff(w, call, weather);
    case Checkpoints(order, written) =>
      forall r ensures written ==> Agree(w'.pinned, w'.live, Recovered(w'.origin, w'.disk, r)) {
        SnapshotRoundTrip(w.live, order, r.restoring);
      }
    case Restarts(draws) =>
      assert Agree(w.pinned, w.live, Recovered(w.origin, w.disk, draws));
      forall r ensures Agree(w'.pinned, w'.live, Recovered(w'.origin, w'.disk, r)) {
        assert Agree(w.pinned, w.live, Recovered(w.origin, w.disk, r));
      }
  }

  lemma RestartAgrees(w: World, draws: Draws)
    requires Recoverable(w)
    ensures Agree(w.pinned, w.live, Happens(w, Restarts(draws)).live) && Recoverable(Happens(w, Restarts(draws)))
  {
    assert Agree(w.pinned, w.live, Recovered(w.origin, w.disk, draws));
    EventRecoverableIff(w, Restarts(draws));
  }

  ghost function WorldAfter(origin: Uid, limit: nat, events: seq<Event>): World
    requires forall i :: 0 <= i < |events| ==> EventOk(events[i])
  {
    if events == [] then Start(origin, limit)
    else Happens(WorldAfter(origin, limit, events[..|events| - 1]), events[|events| - 1])
  }

  /** A forced checkpoint that was written: whatever was lost before, the disk is up to date. */
  ghost predicate Written(e: Event) {
    e.Checkpoints? && e.written
  }

  lemma WrittenRecovers(w: World, e: Event)
    requires EventOk(e) && Written(e)
    ensures Recoverable(Happens(w, e))
  {
    var w' := Happens(w, e);
    forall r ensures Agree(w'.pinned, w'.live, Recovered(w'.origin, w'.disk, r)) {
      SnapshotRoundTrip(w.live, e.order, r.restoring);
    }
  }

  /** Every event from the c-th on was safe, and c is the beginning or comes after a written checkpoint. */
  ghost predicate SafeSince(origin: Uid, limit: nat, events: seq<Event>, c: nat)
    requires forall i :: 0 <= i < |events| ==> EventOk(events[i])
  {
    && c <= |events| && (c == 0 || Written(events[c - 1]))
    && forall k :: c <= k < |events| ==> SafeEvent(WorldAfter(origin, limit, events[..k]), events[k])
  }

  /**
   * In every run of calls in any weather, forced checkpoints and restarts whose calls since
   * the beginning or since some written checkpoint were all safe, recovering from disk gives
   * the live uid, friends, addresses, trust levels, channels and participants, and every edge
   * key set since its friend was last added or held at the last checkpoint.
   */
  lemma {:induction false} RecoveryRefines(origin: Uid, limit: nat, events: seq<Event>, c: nat)
    requires (forall i :: 0 <= i < |events| ==> EventOk(events[i])) && SafeSince(origin, limit, events, c)
    ensures Recoverable(WorldAfter(origin, limit, events))
    decreases |events|
  {
    if events != [] {
      var k := |events| - 1;
      var before := WorldAfter(origin, limit, events[..k]);
      if c == |events| {
        WrittenRecovers(before, events[k]);
      } else {
        assert forall i :: 0 <= i < k ==> events[..k][..i] == events[..i];
        RecoveryRefines(origin, limit, events[..k], c);
        EventRecoverableIff(before, events[k]);
      }
    }
  }

  // ---- Which keys are recovered ----

  /** From this event on, a key of `uid` is on disk: it was set, or a checkpoint with it was written. */
  ghost predicate FixesKey(w: World, e: Event, uid: Uid) {
    uid in w.live.friends && ((e.Calls? && e.call.CallSetEdgeKey? && e.call.uid == uid) || Written(e))
  }

  ghost predicate AddsFriend(e: Event, uid: Uid) {
    e.Calls? && e.call.CallAddFriend? && e.call.uid == uid
  }

  ghost predicate KeyFixed(w: World, uid: Uid) {
    uid in w.live.friends ==> uid in w.pinned
  }

  lemma {:induction false} NoNewFriends(b: State, channel: Name, uids: seq<Uid>)
    ensures WithMembers(b, channel, uids).friends == b.friends
  {
    if uids != [] {
      NoNewFriends(b, channel, uids[..|uids| - 1]);
    }
  }

  lemma StaysFixed(w: World, e: Event, uid: Uid)
    requires Recoverable(w) && EventOk(e) && (KeyFixed(w, uid) || FixesKey(w, e, uid)) && !AddsFriend(e, uid)
    ensures KeyFixed(Happens(w, e), uid)
  {
    match e
    case Calls(call, _) =>
      if call.CallJoinChannel? {
        NoNewFriends(w.live, call.channel, call.uids);
      }
    case Checkpoints(_, _) =>
    case Restarts(draws) => assert Agree(w.pinned, w.live, Recovered(w.origin, w.disk, draws));
  }

  lemma SafePrefix(origin: Uid, limit: nat, events: seq<Event>, c: nat, k: nat)
    requires (forall i :: 0 <= i < |events| ==> EventOk(events[i])) && SafeSince(origin, limit, events, c) && c <= k <= |events|
    ensures SafeSince(origin, limit, events[..k], c)
  {
    assert forall j :: 0 <= j <= k ==> events[..k][..j] == events[..j];
  }

  function Following(k: nat): nat { k + 1 }

  /** The worlds of a run from the i-th event on, each recoverable, leading from one to the next. */
  ghost predicate RunsOn(at: nat -> World, events: seq<Event>, i: nat)
    requires forall k :: 0 <= k < |events| ==> EventOk(events[k])
  {
    forall k :: i <= k < |events| ==> Recoverable(at(k)) && at(Following(k)) == Happens(at(k), events[k])
  }

  lemma {:induction false} FixedUntilAdded(at: nat -> World, events: seq<Event>, i: nat, uid: Uid, k: nat)
    requires (forall j :: 0 <= j < |events| ==> EventOk(events[j])) && RunsOn(at, events, i) && i < k <= |events|
    requires FixesKey(at(i), events[i], uid) && forall j :: i < j < |events| ==> !AddsFriend(events[j], uid)
    ensures KeyFixed(at(k), uid)
    decreases k
  {
    if i + 1 < k {
      FixedUntilAdded(at, events, i, uid, k - 1);
    }
    assert Following(k - 1) == k;
    StaysFixed(at(k - 1), events[k - 1], uid);
  }

  ghost function WorldAt(origin: Uid, limit: nat, events: seq<Event>): nat -> World
    requires forall k :: 0 <= k < |events| ==> EventOk(events[k])
  {
    (k: nat) => if k <= |events| then WorldAfter(origin, limit, events[..k]) else Start(origin, limit)
  }

  lemma WorldNext(origin: Uid, limit: nat, events: seq<Event>, k: nat)
    requires (forall i :: 0 <= i < |events| ==> EventOk(events[i])) && k < |events|
    ensures WorldAfter(origin, limit, events[..k + 1]) == Happens(WorldAfter(origin, limit, events[..k]), events[k])
  {
    var upto := events[..k + 1];
    assert upto[..|upto| - 1] == events[..k] && upto[|upto| - 1] == events[k];
  }

  lemma RecoverableAt(origin: Uid, limit: nat, events: seq<Event>, c: nat, k: nat)
    requires (forall i :: 0 <= i < |events| ==> EventOk(events[i])) && SafeSince(origin, limit, events, c) && c <= k <= |events|
    ensures Recoverable(WorldAfter(origin, limit, events[..k]))
  {
    SafePrefix(origin, limit, events, c, k);
    RecoveryRefines(origin, limit, events[..k], c);
  }

  lemma RunRunsOn(origin: Uid, limit: nat, events: seq<Event>, c: nat, i: nat, at: nat -> World)
    requires (forall k :: 0 <= k < |events| ==> EventOk(events[k])) && SafeSince(origin, limit, events, c) && c <= i
    requires at == WorldAt(origin, limit, events)
    ensures RunsOn(at, events, i)
  {
    forall k | i <= k < |events| ensures Recoverable(at(k)) && at(Following(k)) == Happens(at(k), events[k]) {
      WorldNext(origin, limit, events, k);
      RecoverableAt(origin, limit, events, c, k);
    }
  }

  /**
   * A friend's key that was set, or held when a checkpoint was written, is recovered exactly,
   * whatever keys recovery draws, as long as calls were safe and the friend was not added anew.
   */
  lemma KeyRecovered(origin: Uid, limit: nat, events: seq<Event>, c: nat, i: nat, uid: Uid, r: Draws)
    requires (forall k :: 0 <= k < |events| ==> EventOk(events[k])) && SafeSince(origin, limit, events, c) && c <= i < |events|
    requires FixesKey(WorldAfter(origin, limit, events[..i]), events[i], uid)
    requires forall k :: i < k < |events| ==> !AddsFriend(events[k], uid)
    ensures var w := WorldAfter(origin, limit, events);
            uid in w.live.friends ==>
              uid in Recovered(origin, w.disk, r).friends && Recovered(origin, w.disk, r).friends[uid].key == w.live.friends[uid].key
  {
    var at := WorldAt(origin, limit, events);
    RunRunsOn(origin, limit, events, c, i, at);
    FixedUntilAdded(at, events, i, uid, |events|);
    assert events[..|events|] == events && at(|events|) == WorldAfter(origin, limit, events);
    RecoveryRefines(origin, limit, events, c);
    SameOrigin(origin, limit, events);
    if uid in WorldAfter(origin, limit, events).live.friends {
      FixedIsFound(WorldAfter(origin, limit, events), uid, r);
    }
  }

  lemma FixedIsFound(w: World, uid: Uid, r: Draws)
    requires Recoverable(w) && KeyFixed(w, uid) && uid in w.live.friends
    ensures uid in Recovered(w.origin, w.disk, r).friends && Recovered(w.origin, w.disk, r).friends[uid].key == w.live.friends[uid].key
  {
    assert Agree(w.pinned, w.live, Recovered(w.origin, w.disk, r));
  }

  lemma {:induction false} SameOrigin(origin: Uid, limit: nat, events: seq<Event>)
    requires forall k :: 0 <= k < |events| ==> EventOk(events[k])
    ensures WorldAfter(origin, limit, events).origin == origin
    decreases |events|
  {
    if events != [] {
      SameOrigin(origin, limit, events[..|events| - 1]);
    }
  }
}

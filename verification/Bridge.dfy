/** The friend-to-friend bridge: its social state, its logged calls and the replay of the log. */
module Bridge {
  import opened ByteStrings
  import opened Hex

  const MIN_TRUST := 1

  // The unified scale: unverified, verified, fully trusted.
  type TrustScale = x: nat | x <= 2

  type Name = Bytes

  datatype Friend = Friend(addr: Bytes, trust: TrustScale, key: EdgeKey)

  datatype Channel = Channel(topic: Bytes, participants: seq<Uid>)

  // Every channel has a DC-Net group of the same name, created with it and never removed.
  datatype State = State(uid: Uid, friends: map<Uid, Friend>, channels: map<Name, Channel>)

  function Empty(uid: Uid): State {
    State(uid, map[], map[])
  }

  datatype Op =
    | AddFriend(uid: Uid, addr: Bytes, trust: Byte)
    | RemoveFriend(uid: Uid)
    | UpdateTrust(uid: Uid, trust: Byte)
    | UpdateEdgeKey(uid: Uid, keyHex: Bytes)
    | CreateChannel(name: Name)
    | JoinChannel(channel: Name, uid: Uid)
    | LeaveChannel(channel: Name, uid: Uid)
    | SetUid(uid: Uid)
    | Unused // operations of other components, skipped on replay

  function Capped(trust: Byte): (r: TrustScale)
    ensures trust <= 2 ==> r == trust
    ensures trust > 2 ==> r == 2
  {
    if trust < 2 then trust else 2
  }

  function Without(list: seq<Uid>, uid: Uid): seq<Uid> {
    if list == [] then []
    else Without(list[..|list| - 1], uid) + if list[|list| - 1] == uid then [] else [list[|list| - 1]]
  }

  /** Everybody else stays, as often as before. */
  lemma {:induction false} WithoutMeaning(list: seq<Uid>, uid: Uid, u: Uid)
    ensures u in Without(list, uid) <==> u in list && u != uid
    ensures multiset(Without(list, uid))[u] == if u == uid then 0 else multiset(list)[u]
    decreases |list|
  {
    if list != [] {
      var k := |list| - 1;
      assert list == list[..k] + [list[k]];
      WithoutMeaning(list[..k], uid, u);
    }
  }

  /** And in the same order. */
  lemma {:induction false} WithoutAppend(a: seq<Uid>, b: seq<Uid>, uid: Uid)
    ensures Without(a + b, uid) == Without(a, uid) + Without(b, uid)
    ensures |b| == 1 ==> Without(b, uid) == if b[0] == uid then [] else b
    decreases |b|
  {
    if b == [] {
      assert a + b == a;
    } else {
      var k := |b| - 1;
      assert (a + b)[..|a + b| - 1] == a + b[..k] && (a + b)[|a + b| - 1] == b[k];
      WithoutAppend(a, b[..k], uid);
    }
  }

  // ---- Changes without logging ----

  function WithTrust(b: State, uid: Uid, trust: Byte): State {
    if uid in b.friends then b.(friends := b.friends[uid := b.friends[uid].(trust := Capped(trust))]) else b
  }

  function WithKey(b: State, uid: Uid, key: EdgeKey): State {
    if uid in b.friends then b.(friends := b.friends[uid := b.friends[uid].(key := key)]) else b
  }

  function WithChannel(b: State, name: Name): State {
    if name in b.channels then b else b.(channels := b.channels[name := Channel([], [b.uid])])
  }

  predicate Joins(b: State, channel: Name, uid: Uid) {
    && channel in b.channels && uid != b.uid && uid in b.friends
    && b.friends[uid].trust >= MIN_TRUST && uid !in b.channels[channel].participants
  }

  function WithMember(b: State, channel: Name, uid: Uid): State {
    if Joins(b, channel, uid) then
      b.(channels := b.channels[channel := b.channels[channel].(participants := b.channels[channel].participants + [uid])])
    else b
  }

  /** Members join one after the other. */
  function WithMembers(b: State, channel: Name, uids: seq<Uid>): State {
    if uids == [] then b else WithMember(WithMembers(b, channel, uids[..|uids| - 1]), channel, uids[|uids| - 1])
  }

  function WithoutMember(b: State, channel: Name, uid: Uid): State {
    if channel in b.channels then
      b.(channels := b.channels[channel := b.channels[channel].(participants := Without(b.channels[channel].participants, uid))])
    else b
  }

  // ---- Replay ----

  /** Replays one operation; `key` is the fresh random key that a replayed AddFriend draws. */
  function ApplyOp(b: State, op: Op, key: EdgeKey): State {
    match op
    case AddFriend(uid, addr, trust) => b.(friends := b.friends[uid := Friend(addr, Capped(trust), key)])
    case RemoveFriend(uid) => b.(friends := b.friends - {uid})
    case UpdateTrust(uid, trust) => WithTrust(b, uid, trust)
    case UpdateEdgeKey(uid, keyHex) => if KeyFromHex(keyHex).Some? then WithKey(b, uid, KeyFromHex(keyHex).value) else b
    case CreateChannel(name) => WithChannel(b, name)
    case JoinChannel(channel, uid) => WithMember(b, channel, uid)
    case LeaveChannel(channel, uid) => WithoutMember(b, channel, uid)
    case SetUid(uid) => b.(uid := uid)
    case Unused => b
  }

  function Replay(b: State, ops: seq<Op>, random: nat -> EdgeKey): State {
    if ops == [] then b
    else
      var k := |ops| - 1;
      ApplyOp(Replay(b, ops[..k], random), ops[k], random(k))
  }

  // ---- Live calls ----

  datatype Call =
    | CallAddFriend(uid: Uid, addr: Bytes, trust: Byte, key: EdgeKey)
    | CallRemoveFriend(uid: Uid)
    | CallUpdateTrust(uid: Uid, trust: Byte)
    | CallSetEdgeKey(uid: Uid, key: EdgeKey)
    | CallCreateChannel(name: Name)
    | CallJoinChannel(channel: Name, uids: seq<Uid>)
    | CallLeaveChannel(channel: Name)
    | CallSetUid(uid: Uid)

  /** What a call does to the live state. */
  function Performed(b: State, call: Call): State {
    match call
    case CallAddFriend(uid, addr, trust, key) => b.(friends := b.friends[uid := Friend(addr, Capped(trust), key)])
    case CallRemoveFriend(uid) => b.(friends := b.friends - {uid})
    case CallUpdateTrust(uid, trust) => WithTrust(b, uid, trust)
    case CallSetEdgeKey(uid, key) => WithKey(b, uid, key)
    case CallCreateChannel(name) => WithChannel(b, name)
    case CallJoinChannel(channel, uids) => WithMembers(b, channel, uids)
    case CallLeaveChannel(channel) => WithoutMember(b, channel, b.uid)
    case CallSetUid(uid) => b.(uid := uid)
  }

  /** A join is logged for every friend who is not yet in the channel, trusted enough or not. */
  predicate LogsJoin(b: State, channel: Name, uid: Uid) {
    channel in b.channels && uid !in b.channels[channel].participants && uid in b.friends
  }

  function LoggedJoins(b: State, channel: Name, uids: seq<Uid>): seq<Op> {
    if uids == [] then []
    else
      var uid := uids[|uids| - 1];
      LoggedJoins(b, channel, uids[..|uids| - 1]) + if LogsJoin(b, channel, uid) then [JoinChannel(channel, uid)] else []
  }

  /** A join is logged for exactly the friends among `uids` who are not yet in the channel, in their order, whatever their trust. */
  lemma {:induction false} LoggedJoinsMeaning(b: State, channel: Name, uids: seq<Uid>, op: Op)
    ensures op in LoggedJoins(b, channel, uids) <==>
              && op.JoinChannel? && op.channel == channel && op.uid in uids && op.uid in b.friends
              && channel in b.channels && op.uid !in b.channels[channel].participants
    decreases |uids|
  {
    if uids != [] {
      var k := |uids| - 1;
      assert uids == uids[..k] + [uids[k]];
      LoggedJoinsMeaning(b, channel, uids[..k], op);
    }
  }

  lemma {:induction false} LoggedJoinsAppend(b: State, channel: Name, a: seq<Uid>, more: seq<Uid>)
    ensures LoggedJoins(b, channel, a + more) == LoggedJoins(b, channel, a) + LoggedJoins(b, channel, more)
    ensures |LoggedJoins(b, channel, more)| <= |more|
    decreases |more|
  {
    if more == [] {
      assert a + more == a;
    } else {
      var k := |more| - 1;
      assert (a + more)[..|a + more| - 1] == a + more[..k] && (a + more)[|a + more| - 1] == more[k];
      LoggedJoinsAppend(b, channel, a, more[..k]);
    }
  }

  /** What a call appends to the log. */
  function Logged(b: State, call: Call): seq<Op> {
    match call
    case CallAddFriend(uid, addr, trust, _) => [AddFriend(uid, addr, trust)]
    case CallRemoveFriend(uid) => [RemoveFriend(uid)]
    case CallUpdateTrust(uid, trust) => [UpdateTrust(uid, trust)]
    case CallSetEdgeKey(uid, key) => if uid in b.friends then [UpdateEdgeKey(uid, Encode(key))] else []
    case CallCreateChannel(name) => if name in b.channels then [] else [CreateChannel(name)]
    case CallJoinChannel(channel, uids) => LoggedJoins(b, channel, uids)
    case CallLeaveChannel(channel) => [LeaveChannel(channel, b.uid)]
    case CallSetUid(uid) => [SetUid(uid)]
  }

  // ---- Snapshots ----

  datatype FriendRecord = FriendRecord(uid: Uid, addr: Bytes, trust: Byte, keyHex: Option<Bytes>)

  datatype ChannelRecord = ChannelRecord(name: Name, topic: Bytes, participants: seq<Uid>)

  datatype Snapshot = Snapshot(uid: Uid, friends: seq<FriendRecord>, channels: seq<ChannelRecord>)

  // The order in which a hash table is walked.
  type Order = set<Bytes> -> seq<Bytes>

  ghost predicate IsOrder(order: Order) {
    forall s :: Enumerates(order(s), s)
  }

  function RecordOf(b: State, uid: Uid): FriendRecord
    requires uid in b.friends
  {
    var f := b.friends[uid];
    FriendRecord(uid, f.addr, f.trust, Some(Encode(f.key)))
  }

  function FriendRecords(b: State, uids: seq<Uid>): (r: seq<FriendRecord>)
    requires forall u :: u in uids ==> u in b.friends
    ensures |r| == |uids| && forall i :: 0 <= i < |r| ==> r[i] == RecordOf(b, uids[i])
  {
    seq(|uids|, i requires 0 <= i < |uids| => RecordOf(b, uids[i]))
  }

  function ChannelRecords(b: State, names: seq<Name>): (r: seq<ChannelRecord>)
    requires forall n :: n in names ==> n in b.channels
    ensures |r| == |names|
    ensures forall i :: 0 <= i < |r| ==> r[i] == ChannelRecord(names[i], b.channels[names[i]].topic, b.channels[names[i]].participants)
  {
    seq(|names|, i requires 0 <= i < |names| => ChannelRecord(names[i], b.channels[names[i]].topic, b.channels[names[i]].participants))
  }

  ghost function SnapshotOf(b: State, order: Order): Snapshot
    requires IsOrder(order)
  {
    Snapshot(b.uid, FriendRecords(b, order(b.friends.Keys)), ChannelRecords(b, order(b.channels.Keys)))
  }

  /** A record without a readable key gets a fresh random one. */
  function RestoredFriend(f: FriendRecord, key: EdgeKey): Friend {
    var stored := if f.keyHex.Some? then KeyFromHex(f.keyHex.value) else None;
    Friend(f.addr, Capped(f.trust), if stored.Some? then stored.value else key)
  }

  function RestoredFriends(fs: seq<FriendRecord>, random: nat -> EdgeKey): map<Uid, Friend> {
    if fs == [] then map[]
    else
      var k := |fs| - 1;
      RestoredFriends(fs[..k], random)[fs[k].uid := RestoredFriend(fs[k], random(k))]
  }

  function RestoredChannels(cs: seq<ChannelRecord>): map<Name, Channel> {
    if cs == [] then map[]
    else
      var k := |cs| - 1;
      RestoredChannels(cs[..k])[cs[k].name := Channel(cs[k].topic, cs[k].participants)]
  }

  function Restored(snap: Snapshot, random: nat -> EdgeKey): State {
    State(snap.uid, RestoredFriends(snap.friends, random), RestoredChannels(snap.channels))
  }

  lemma {:induction false} FriendsRoundTrip(b: State, uids: seq<Uid>, random: nat -> EdgeKey, u: Uid)
    requires forall x :: x in uids ==> x in b.friends
    ensures u in RestoredFriends(FriendRecords(b, uids), random) <==> u in uids
    ensures u in uids ==> RestoredFriends(FriendRecords(b, uids), random)[u] == b.friends[u]
    decreases |uids|
  {
    if uids != [] {
      var k := |uids| - 1;
      assert uids == uids[..k] + [uids[k]];
      assert FriendRecords(b, uids)[..k] == FriendRecords(b, uids[..k]);
      FriendsRoundTrip(b, uids[..k], random, u);
      KeyRoundTrip(b.friends[uids[k]].key);
    }
  }

  lemma {:induction false} ChannelsRoundTrip(b: State, names: seq<Name>, n: Name)
    requires forall x :: x in names ==> x in b.channels
    ensures n in RestoredChannels(ChannelRecords(b, names)) <==> n in names
    ensures n in names ==> RestoredChannels(ChannelRecords(b, names))[n] == b.channels[n]
    decreases |names|
  {
    if names != [] {
      var k := |names| - 1;
      assert names == names[..k] + [names[k]];
      assert ChannelRecords(b, names)[..k] == ChannelRecords(b, names[..k]);
      ChannelsRoundTrip(b, names[..k], n);
    }
  }

  /** A snapshot, in whatever order it was written, restores exactly the state it was taken of. */
  lemma SnapshotRoundTrip(b: State, order: Order, random: nat -> EdgeKey)
    requires IsOrder(order)
    ensures Restored(SnapshotOf(b, order), random) == b
  {
    var r := Restored(SnapshotOf(b, order), random);
    forall u ensures (u in r.friends <==> u in b.friends) && (u in b.friends ==> r.friends[u] == b.friends[u]) {
      FriendsRoundTrip(b, order(b.friends.Keys), random, u);
    }
    forall n ensures (n in r.channels <==> n in b.channels) && (n in b.channels ==> r.channels[n] == b.channels[n]) {
      ChannelsRoundTrip(b, order(b.channels.Keys), n);
    }
    assert r.friends == b.friends && r.channels == b.channels;
  }
}

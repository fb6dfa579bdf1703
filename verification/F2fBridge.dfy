/** The bridge and its write-ahead log as the objects that their methods update. */
module F2fBridge {
  import opened ByteStrings
  import opened Hex
  import opened Bridge
  import opened Recovery

  class WalStore {
    var log: seq<Op>
    var state: Option<Snapshot>
    var opsSinceCheckpoint: nat
    const checkpointOps: nat

    /** Opens what an earlier process left behind; its operations no longer count towards the next checkpoint. */
    constructor (disk: Disk, checkpointOps: nat)
      ensures View() == disk && opsSinceCheckpoint == 0 && this.checkpointOps == checkpointOps
    {
      log, state, opsSinceCheckpoint := disk.log, disk.state, 0;
      this.checkpointOps := checkpointOps;
    }

    function View(): Disk
      reads this
    {
      Disk(state, log)
    }

    method Append(op: Op, ok: bool)
      modifies this`log, this`opsSinceCheckpoint
      ensures View() == if ok then old(View()).(log := old(log) + [op]) else old(View())
      ensures opsSinceCheckpoint == old(opsSinceCheckpoint) + if ok then 1 else 0
    {
      if ok {
        log := log + [op];
        opsSinceCheckpoint := opsSinceCheckpoint + 1;
      }
    }

    predicate ShouldCheckpoint(timerDue: bool)
      reads this
    {
      opsSinceCheckpoint >= checkpointOps || timerDue
    }

    method Checkpoint(snap: Snapshot, written: bool)
      modifies this
      ensures View() == if written then Disk(Some(snap), []) else old(View())
      ensures opsSinceCheckpoint == if written then 0 else old(opsSinceCheckpoint)
    {
      if written {
        state := Some(snap);
        log := [];
        opsSinceCheckpoint := 0;
      }
    }
  }

  class F2fBridge {
    var friends: map<Uid, Friend>
    var channels: map<Name, Channel>
    var myUid: Uid
    const wal: WalStore
    // The uid in the identity file, from which every restart begins.
    const origin: Uid
    ghost var pinned: set<Uid>

    function View(): State
      reads this
    {
      State(myUid, friends, channels)
    }

    /** The bridge and its disk as the recovery theorems speak of them. */
    ghost function Now(): World
      reads this, wal
    {
      World(origin, wal.checkpointOps, View(), wal.View(), wal.opsSinceCheckpoint, pinned)
    }

    constructor (uid: Uid, wal: WalStore, ghost pinned: set<Uid>)
      ensures View() == Empty(uid) && this.wal == wal && origin == uid && this.pinned == pinned
    {
      friends, channels, myUid := map[], map[], uid;
      this.wal, origin, this.pinned := wal, uid, pinned;
    }

    /** Appends an operation, then checkpoints when due: before the operation takes effect. */
    method LogWal(op: Op, x: Weather)
      requires IsOrder(x.order)
      modifies wal
      ensures (wal.View(), wal.opsSinceCheckpoint) ==
              LogOne(old(wal.View()), old(wal.opsSinceCheckpoint), wal.checkpointOps, View(), op, x)
      ensures x.checkpoints && (x.timerDue || old(wal.opsSinceCheckpoint) + (if x.appends then 1 else 0) >= wal.checkpointOps) ==>
                wal.log == [] && wal.state == Some(SnapshotOf(View(), x.order)) && wal.opsSinceCheckpoint == 0
      ensures !x.checkpoints || (!x.timerDue && old(wal.opsSinceCheckpoint) + (if x.appends then 1 else 0) < wal.checkpointOps) ==>
                && wal.state == old(wal.state) && wal.log == old(wal.log) + (if x.appends then [op] else [])
                && wal.opsSinceCheckpoint == old(wal.opsSinceCheckpoint) + if x.appends then 1 else 0
    {
      wal.Append(op, x.appends);
      if wal.ShouldCheckpoint(x.timerDue) {
        WriteCheckpoint(x.order, x.checkpoints);
      }
    }

    method WriteCheckpoint(order: Order, written: bool)
      requires IsOrder(order)
      modifies wal
      ensures (wal.View(), wal.opsSinceCheckpoint) ==
              if written then (Disk(Some(SnapshotOf(View(), order)), []), 0) else (old(wal.View()), old(wal.opsSinceCheckpoint))
    {
      var snap := Snapshot(myUid, FriendRecords(View(), order(friends.Keys)), ChannelRecords(View(), order(channels.Keys)));
      wal.Checkpoint(snap, written);
    }

    method CheckpointWal(order: Order, written: bool)
      requires IsOrder(order)
      modifies wal, this`pinned
      ensures Now() == Happens(old(Now()), Checkpoints(order, written))
    {
      WriteCheckpoint(order, written);
      pinned := if written then friends.Keys else pinned;
    }

    /** The single operation of a call. */
    method LogSingle(op: Op, w: nat -> Weather)
      requires Fair(w)
      modifies wal
      ensures (wal.View(), wal.opsSinceCheckpoint) ==
              LogAll(old(wal.View()), old(wal.opsSinceCheckpoint), wal.checkpointOps, View(), [op], w)
    {
      LogOneMore(wal.View(), wal.opsSinceCheckpoint, wal.checkpointOps, View(), [], op, w);
      assert [] + [op] == [op];
      LogWal(op, w(0));
    }

    method AddNewFriend(uid: Uid, addr: Bytes, trust: Byte, key: EdgeKey, w: nat -> Weather)
      requires Fair(w)
      modifies this, wal
      ensures Now() == Happens(old(Now()), Calls(CallAddFriend(uid, addr, trust, key), w))
      ensures friends == old(friends)[uid := Friend(addr, if trust <= 2 then trust else 2, key)]
      ensures channels == old(channels) && myUid == old(myUid)
    {
      ghost var next := Happens(Now(), Calls(CallAddFriend(uid, addr, trust, key), w));
      LogSingle(AddFriend(uid, addr, trust), w);
      friends := friends[uid := Friend(addr, Capped(trust), key)];
      pinned := next.pinned;
    }

    method DropFriend(uid: Uid, w: nat -> Weather)
      requires Fair(w)
      modifies this, wal
      ensures Now() == Happens(old(Now()), Calls(CallRemoveFriend(uid), w))
      ensures friends == old(friends) - {uid} && channels == old(channels) && myUid == old(myUid)
    {
      ghost var next := Happens(Now(), Calls(CallRemoveFriend(uid), w));
      LogSingle(RemoveFriend(uid), w);
      friends := friends - {uid};
      pinned := next.pinned;
    }

    method ChangeTrust(uid: Uid, trust: Byte, w: nat -> Weather)
      requires Fair(w)
      modifies this, wal
      ensures Now() == Happens(old(Now()), Calls(CallUpdateTrust(uid, trust), w))
      ensures uid in old(friends) ==> friends == old(friends)[uid := old(friends)[uid].(trust := if trust <= 2 then trust else 2)]
      ensures uid !in old(friends) ==> friends == old(friends)
      ensures channels == old(channels) && myUid == old(myUid)
    {
      ghost var next := Happens(Now(), Calls(CallUpdateTrust(uid, trust), w));
      LogSingle(UpdateTrust(uid, trust), w);
      if uid in friends {
        friends := friends[uid := friends[uid].(trust := Capped(trust))];
      }
      pinned := next.pinned;
    }

    method SetEdgeKey(uid: Uid, key: EdgeKey, w: nat -> Weather) returns (known: bool)
      requires Fair(w)
      modifies this, wal
      ensures known == (uid in old(friends)) && Now() == Happens(old(Now()), Calls(CallSetEdgeKey(uid, key), w))
      ensures known ==> friends == old(friends)[uid := old(friends)[uid].(key := key)]
      ensures !known ==> friends == old(friends) && wal.log == old(wal.log)
      ensures channels == old(channels) && myUid == old(myUid)
    {
      if uid !in friends {
        return false;
      }
      ghost var next := Happens(Now(), Calls(CallSetEdgeKey(uid, key), w));
      LogSingle(UpdateEdgeKey(uid, Encode(key)), w);
      friends := friends[uid := friends[uid].(key := key)];
      pinned := next.pinned;
      known := true;
    }

    /** Imports a key from its text form; unreadable text changes nothing. */
    method ImportEdgeKey(uid: Uid, hex: Bytes, w: nat -> Weather) returns (known: bool)
      requires Fair(w)
      modifies this, wal
      ensures known == (KeyFromHex(hex).Some? && uid in old(friends))
      ensures Now() == if KeyFromHex(hex).Some? then Happens(old(Now()), Calls(CallSetEdgeKey(uid, KeyFromHex(hex).value), w)) else old(Now())
    {
      var key := KeyFromHex(hex);
      if key.None? {
        return false;
      }
      known := SetEdgeKey(uid, key.value, w);
    }

    method NewChannel(name: Name, w: nat -> Weather) returns (created: bool)
      requires Fair(w)
      modifies this, wal
      ensures created == (name !in old(channels)) && Now() == Happens(old(Now()), Calls(CallCreateChannel(name), w))
      ensures created ==> channels == old(channels)[name := Channel([], [old(myUid)])]
      ensures !created ==> channels == old(channels) && wal.log == old(wal.log)
      ensures friends == old(friends) && myUid == old(myUid)
    {
      if name in channels {
        return false;
      }
      ghost var next := Happens(Now(), Calls(CallCreateChannel(name), w));
      LogSingle(CreateChannel(name), w);
      channels := channels[name := Channel([], [myUid])];
      pinned := next.pinned;
      created := true;
    }

    method Leave(channel: Name, w: nat -> Weather)
      requires Fair(w)
      modifies this, wal
      ensures Now() == Happens(old(Now()), Calls(CallLeaveChannel(channel), w))
      ensures channels.Keys == old(channels).Keys && friends == old(friends) && myUid == old(myUid)
      ensures forall name :: name in channels && name != channel ==> channels[name] == old(channels)[name]
      ensures channel in channels ==> channels[channel].topic == old(channels)[channel].topic
      ensures channel in channels ==> forall u ::
                && (u in channels[channel].participants <==> u in old(channels)[channel].participants && u != myUid)
                && multiset(channels[channel].participants)[u] == if u == myUid then 0 else multiset(old(channels)[channel].participants)[u]
    {
      ghost var next := Happens(Now(), Calls(CallLeaveChannel(channel), w));
      LogSingle(LeaveChannel(channel, myUid), w);
      if channel in channels {
        forall u ensures (u in Without(channels[channel].participants, myUid) <==> u in channels[channel].participants && u != myUid)
                         && multiset(Without(channels[channel].participants, myUid))[u] ==
                            if u == myUid then 0 else multiset(channels[channel].participants)[u] {
          WithoutMeaning(channels[channel].participants, myUid, u);
        }
        channels := channels[channel := channels[channel].(participants := Without(channels[channel].participants, myUid))];
      }
      pinned := next.pinned;
    }

    method SetMyUid(uid: Uid, w: nat -> Weather)
      requires Fair(w)
      modifies this, wal
      ensures Now() == Happens(old(Now()), Calls(CallSetUid(uid), w))
      ensures myUid == uid && friends == old(friends) && channels == old(channels)
    {
      ghost var next := Happens(Now(), Calls(CallSetUid(uid), w));
      LogSingle(SetUid(uid), w);
      myUid := uid;
      pinned := next.pinned;
    }

    /** First everything is logged, then everybody joins. */
    method Join(channel: Name, uids: seq<Uid>, w: nat -> Weather) returns (joined: seq<Uid>)
      requires Fair(w)
      modifies this, wal
      ensures Now() == Happens(old(Now()), Calls(CallJoinChannel(channel, uids), w))
      ensures channel in old(channels) ==>
                channel in channels && channels[channel].participants == old(channels[channel].participants) + joined
      ensures forall u :: u in joined <==>
                && u in uids && channel in old(channels) && u != myUid && u in friends && friends[u].trust >= 1
                && u !in old(channels)[channel].participants
      ensures NoDuplicates(joined) && friends == old(friends) && myUid == old(myUid) && channels.Keys == old(channels).Keys
      ensures forall name :: name in channels && name != channel ==> channels[name] == old(channels)[name]
    {
      ghost var next := Happens(Now(), Calls(CallJoinChannel(channel, uids), w));
      LogJoins(channel, uids, w);
      joined := JoinMembers(channel, uids);
      pinned := next.pinned;
    }

    method LogJoins(channel: Name, uids: seq<Uid>, w: nat -> Weather)
      requires Fair(w)
      modifies wal
      ensures (wal.View(), wal.opsSinceCheckpoint) ==
              LogAll(old(wal.View()), old(wal.opsSinceCheckpoint), wal.checkpointOps, View(), LoggedJoins(View(), channel, uids), w)
    {
      ghost var d, p := wal.View(), wal.opsSinceCheckpoint;
      var count := 0;
      for i := 0 to |uids|
        invariant count == |LoggedJoins(View(), channel, uids[..i])|
        invariant (wal.View(), wal.opsSinceCheckpoint) ==
                  LogAll(d, p, wal.checkpointOps, View(), LoggedJoins(View(), channel, uids[..i]), w)
      {
        assert uids[..i + 1][..i] == uids[..i];
        ghost var before := LoggedJoins(View(), channel, uids[..i]);
        assert before + [] == before;
        if LogsJoin(View(), channel, uids[i]) {
          LogOneMore(d, p, wal.checkpointOps, View(), before, JoinChannel(channel, uids[i]), w);
          LogWal(JoinChannel(channel, uids[i]), w(count));
          count := count + 1;
        }
      }
      assert uids[..|uids|] == uids;
    }

    method JoinMembers(channel: Name, uids: seq<Uid>) returns (joined: seq<Uid>)
      modifies this`channels
      ensures View() == WithMembers(old(View()), channel, uids)
      ensures channel in old(channels) ==>
                channel in channels && channels[channel].participants == old(channels[channel].participants) + joined
      ensures forall u :: u in joined <==>
                && u in uids && channel in old(channels) && u != myUid && u in friends && friends[u].trust >= 1
                && u !in old(channels)[channel].participants
      ensures NoDuplicates(joined) && friends == old(friends) && myUid == old(myUid) && channels.Keys == old(channels).Keys
      ensures forall name :: name in channels && name != channel ==> channels[name] == old(channels)[name]
    {
      joined := [];
      for i := 0 to |uids|
        invariant View() == WithMembers(old(View()), channel, uids[..i])
        invariant channel in old(channels) ==>
                    channel in channels && channels[channel].participants == old(channels[channel].participants) + joined
        invariant channels.Keys == old(channels).Keys && NoDuplicates(joined)
        invariant forall name :: name in channels && name != channel ==> channels[name] == old(channels)[name]
        invariant forall u :: u in joined <==>
                    && u in uids[..i] && channel in old(channels) && u != myUid && u in friends && friends[u].trust >= 1
                    && u !in old(channels)[channel].participants
      {
        assert uids[..i + 1][..i] == uids[..i];
        var uid := uids[i];
        if channel in channels && uid != myUid && uid in friends
           && friends[uid].trust >= MIN_TRUST && uid !in channels[channel].participants
        {
          channels := channels[channel := channels[channel].(participants := channels[channel].participants + [uid])];
          joined := joined + [uid];
        }
      }
      assert uids[..|uids|] == uids;
    }

    // ---- Startup ----

    method ApplyOpNoLog(op: Op, key: EdgeKey)
      modifies this`friends, this`channels, this`myUid
      ensures View() == ApplyOp(old(View()), op, key)
      ensures op.LeaveChannel? && op.channel in old(channels) ==>
                && op.channel in channels
                && forall u :: u in channels[op.channel].participants <==> u in old(channels)[op.channel].participants && u != op.uid
      ensures op.JoinChannel? && op.channel in old(channels) ==>
                && op.channel in channels
                && forall u :: u in channels[op.channel].participants <==>
                     || u in old(channels)[op.channel].participants
                     || (u == op.uid && u != myUid && u in friends && friends[u].trust >= 1)
    {
      match op
      case AddFriend(uid, addr, trust) =>
        friends := friends[uid := Friend(addr, Capped(trust), key)];
      case RemoveFriend(uid) =>
        friends := friends - {uid};
      case UpdateTrust(uid, trust) =>
        if uid in friends {
          friends := friends[uid := friends[uid].(trust := Capped(trust))];
        }
      case UpdateEdgeKey(uid, keyHex) =>
        var k := KeyFromHex(keyHex);
        if k.Some? && uid in friends {
          friends := friends[uid := friends[uid].(key := k.value)];
        }
      case CreateChannel(name) =>
        if name !in channels {
          channels := channels[name := Channel([], [myUid])];
        }
      case JoinChannel(channel, uid) =>
        var joined := JoinMembers(channel, [uid]);
        assert WithMembers(old(View()), channel, [uid][..0]) == old(View());
      case LeaveChannel(channel, uid) =>
        if channel in channels {
          forall u ensures u in Without(channels[channel].participants, uid) <==> u in channels[channel].participants && u != uid {
            WithoutMeaning(channels[channel].participants, uid, u);
          }
          channels := channels[channel := channels[channel].(participants := Without(channels[channel].participants, uid))];
        }
      case SetUid(uid) =>
        myUid := uid;
      case Unused =>
    }

    method ApplySnapshot(snap: Snapshot, random: nat -> EdgeKey)
      modifies this`friends, this`channels, this`myUid
      ensures View() == Restored(snap, random)
    {
      myUid, friends, channels := snap.uid, map[], map[];
      RestoreFriends(snap.friends, random);
      RestoreChannels(snap.channels);
    }

    method RestoreFriends(fs: seq<FriendRecord>, random: nat -> EdgeKey)
      requires friends == map[]
      modifies this`friends
      ensures friends == RestoredFriends(fs, random)
    {
      for i := 0 to |fs|
        invariant friends == RestoredFriends(fs[..i], random)
      {
        assert fs[..i + 1][..i] == fs[..i];
        friends := friends[fs[i].uid := RestoredFriend(fs[i], random(i))];
      }
      assert fs[..|fs|] == fs;
    }

    /** Each channel is created as a new one and then gets the recorded topic and participants. */
    method RestoreChannels(cs: seq<ChannelRecord>)
      requires channels == map[]
      modifies this`channels
      ensures channels == RestoredChannels(cs)
    {
      for i := 0 to |cs|
        invariant channels == RestoredChannels(cs[..i])
      {
        assert cs[..i + 1][..i] == cs[..i];
        if cs[i].name !in channels {
          channels := channels[cs[i].name := Channel([], [myUid])];
        }
        channels := channels[cs[i].name := Channel(cs[i].topic, cs[i].participants)];
        assert channels == RestoredChannels(cs[..i])[cs[i].name := Channel(cs[i].topic, cs[i].participants)];
      }
      assert cs[..|cs|] == cs;
    }

    /** A new process takes over the disk of a crashed one: snapshot first, then the log. */
    method Recover(draws: Draws, ghost crashed: World)
      requires View() == Empty(origin) && wal.opsSinceCheckpoint == 0
      requires crashed.origin == origin && crashed.limit == wal.checkpointOps && crashed.disk == wal.View() && crashed.pinned == pinned
      modifies this`friends, this`channels, this`myUid
      ensures Now() == Happens(crashed, Restarts(draws))
      ensures Recoverable(crashed) ==> Agree(crashed.pinned, crashed.live, View()) && Recoverable(Now())
    {
      if wal.state.Some? {
        ApplySnapshot(wal.state.value, draws.restoring);
      }
      ghost var base := View();
      for i := 0 to |wal.log|
        invariant View() == Replay(base, wal.log[..i], draws.replaying)
      {
        assert wal.log[..i + 1][..i] == wal.log[..i];
        ApplyOpNoLog(wal.log[i], draws.replaying(i));
      }
      assert wal.log[..|wal.log|] == wal.log;
      if Recoverable(crashed) {
        RestartAgrees(crashed, draws);
      }
    }
  }
}

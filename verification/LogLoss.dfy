/** What is lost, exactly, when appends fail or a checkpoint falls due in the middle of a call. */
module LogLoss {
  import opened ByteStrings
  import opened Hex
  import opened Bridge
  import opened Recovery

  // ---- Calm weather ----

  ghost predicate Calm(w: World, call: Call, weather: nat -> Weather) {
    && Fair(weather) && (forall i :: weather(i).appends && !weather(i).timerDue)
    && w.pending + |Logged(w.live, call)| < w.limit
  }

  lemma {:induction false} CalmFate(ops: seq<Op>, pending: nat, limit: nat, w: nat -> Weather)
    requires (forall i :: w(i).appends && !w(i).timerDue) && pending + |ops| < limit
    ensures FateOf(ops, pending, limit, w) == Fate(false, ops, pending + |ops|)
  {
    if ops != [] {
      CalmFate(ops[..|ops| - 1], pending, limit, w);
    }
  }

  /** With every append succeeding and no checkpoint due, the log grows by the call's operations, which is safe. */
  lemma CalmCallSafe(w: World, call: Call, weather: nat -> Weather)
    requires Calm(w, call, weather)
    ensures Safe(w, call, CallFate(w, call, weather))
    ensures var w' := Happens(w, Calls(call, weather));
            w'.disk == w.disk.(log := w.disk.log + Logged(w.live, call)) && w'.pinned == PinnedAfter(w.pinned, w.live, call)
  {
    CalmFate(Logged(w.live, call), w.pending, w.limit, weather);
    FateOnDisk(w.disk, w.pending, w.limit, w.live, Logged(w.live, call), weather);
  }

  // ---- Failed appends ----

  /** Nothing gets written while the call is logged. */
  ghost predicate Unwritten(w: World, weather: nat -> Weather) {
    Fair(weather) && forall i :: !weather(i).appends && !Checkpointing(w.pending, w.limit, weather(i))
  }

  lemma {:induction false} UnwrittenFate(ops: seq<Op>, pending: nat, limit: nat, w: nat -> Weather)
    requires forall i :: !w(i).appends && !Checkpointing(pending, limit, w(i))
    ensures FateOf(ops, pending, limit, w) == Fate(false, [], pending)
  {
    if ops != [] {
      UnwrittenFate(ops[..|ops| - 1], pending, limit, w);
    }
  }

  /** Recovery without the call gives what it would have done. */
  predicate LossHarmless(w: World, call: Call) {
    if call.CallSetEdgeKey? then
      call.uid in w.live.friends ==> call.uid in Sources(w.disk) && Sources(w.disk)[call.uid] == Known(call.key)
    else NoEffect(w.live, call)
  }

  lemma JoinedBySnoc(ops: seq<Op>, channel: Name, uid: Uid)
    ensures JoinedBy(ops + [JoinChannel(channel, uid)]) == JoinedBy(ops) + [uid]
  {
    assert (ops + [JoinChannel(channel, uid)])[..|ops|] == ops;
  }

  lemma NewcomersSnoc(b: State, channel: Name, us: seq<Uid>, u: Uid)
    ensures var before := Newcomers(b, channel, us);
            Newcomers(b, channel, us + [u]) == if Joins(b, channel, u) && u !in before then before + [u] else before
  {
    assert (us + [u])[..|us|] == us;
  }

  lemma {:induction false} JoinersLogged(b: State, channel: Name, uids: seq<Uid>)
    ensures Newcomers(b, channel, JoinedBy(LoggedJoins(b, channel, uids))) == Newcomers(b, channel, uids)
  {
    if uids != [] {
      var k := |uids| - 1;
      JoinersLogged(b, channel, uids[..k]);
      JoinersStep(b, channel, uids, k, LoggedJoins(b, channel, uids[..k]));
    }
  }

  lemma JoinersStep(b: State, channel: Name, uids: seq<Uid>, k: nat, before: seq<Op>)
    requires k + 1 == |uids| && before == LoggedJoins(b, channel, uids[..k])
    requires Newcomers(b, channel, JoinedBy(before)) == Newcomers(b, channel, uids[..k])
    ensures Newcomers(b, channel, JoinedBy(LoggedJoins(b, channel, uids))) == Newcomers(b, channel, uids)
  {
    assert uids == uids[..k] + [uids[k]];
    NewcomersSnoc(b, channel, uids[..k], uids[k]);
    if LogsJoin(b, channel, uids[k]) {
      JoinedBySnoc(before, channel, uids[k]);
      NewcomersSnoc(b, channel, JoinedBy(before), uids[k]);
    } else {
      assert before + [] == before;
    }
  }

  lemma NobodyIsNoEffect(b: State, channel: Name, uids: seq<Uid>)
    ensures Newcomers(b, channel, uids) == [] <==> forall u :: u in uids ==> !Joins(b, channel, u)
  {
    var n := Newcomers(b, channel, uids);
    if n != [] {
      assert n[0] in n;
    }
  }

  /** The bridge changes its state although nothing was written: the call survives a crash if and only if that loses nothing. */
  lemma FailedAppendsKeepIff(w: World, call: Call, weather: nat -> Weather)
    requires Recoverable(w) && Unwritten(w, weather)
    ensures Recoverable(Happens(w, Calls(call, weather))) <==> LossHarmless(w, call)
  {
    CallRecoverableIff(w, call, weather);
    UnwrittenFate(Logged(w.live, call), w.pending, w.limit, weather);
    if call.CallJoinChannel? {
      NobodyIsNoEffect(w.live, call.channel, call.uids);
      JoinersLogged(w.live, call.channel, call.uids);
      assert JoinedBy([]) == [];
    }
  }

  /** A first friend whose record could not be appended is gone after a restart. */
  lemma FailedAppendLoses(origin: Uid, limit: nat, uid: Uid, addr: Bytes, trust: Byte, key: EdgeKey, weather: nat -> Weather, r: Draws)
    requires Unwritten(Start(origin, limit), weather)
    ensures var w := Happens(Start(origin, limit), Calls(CallAddFriend(uid, addr, trust, key), weather));
            uid in w.live.friends && Recovered(w.origin, w.disk, r) == Empty(origin) && !Recoverable(w)
  {
    var w := Start(origin, limit);
    UnwrittenFate(Logged(w.live, CallAddFriend(uid, addr, trust, key)), w.pending, w.limit, weather);
    FateOnDisk(w.disk, w.pending, w.limit, w.live, Logged(w.live, CallAddFriend(uid, addr, trust, key)), weather);
    FailedAppendsKeepIff(w, CallAddFriend(uid, addr, trust, key), weather);
  }

  // ---- Checkpoints in the middle of a call ----

  /** How many of the operations were logged up to the last checkpoint among them. */
  function LostOps(ops: seq<Op>, pending: nat, limit: nat, w: nat -> Weather): (n: nat)
    ensures n <= |ops|
  {
    if ops == [] then 0
    else
      var k := |ops| - 1;
      var f := FateOf(ops[..k], pending, limit, w);
      if Checkpointing(if w(k).appends then f.pending + 1 else f.pending, limit, w(k)) then |ops|
      else LostOps(ops[..k], pending, limit, w)
  }

  /** All appends succeeded: what is kept is what came after the last checkpoint. */
  ghost predicate KeptAfter(ops: seq<Op>, f: Fate, n: nat) {
    n <= |ops| && f.kept == ops[n..] && f.checkpointed == (n > 0)
  }

  lemma KeptAfterStep(ops: seq<Op>, k: nat, f: Fate, n: nat, pending: nat)
    requires k + 1 == |ops| && KeptAfter(ops[..k], f, n)
    ensures KeptAfter(ops, Fate(f.checkpointed, f.kept + [ops[k]], pending), n) && KeptAfter(ops, Fate(true, [], 0), |ops|)
  {
    assert ops[..k][n..] + [ops[k]] == ops[n..];
  }

  lemma {:induction false} CheckpointFate(ops: seq<Op>, pending: nat, limit: nat, w: nat -> Weather)
    requires forall i :: w(i).appends
    ensures KeptAfter(ops, FateOf(ops, pending, limit, w), LostOps(ops, pending, limit, w))
  {
    if ops != [] {
      var k := |ops| - 1;
      CheckpointFate(ops[..k], pending, limit, w);
      var f := FateOf(ops[..k], pending, limit, w);
      KeptAfterStep(ops, k, f, LostOps(ops[..k], pending, limit, w), f.pending + 1);
    }
  }

  /** The operations after the last checkpoint do what all of them would. */
  predicate CheckpointHarmless(b: State, call: Call, lost: nat)
    requires lost <= |Logged(b, call)|
  {
    if call.CallJoinChannel? then
      Newcomers(b, call.channel, JoinedBy(Logged(b, call)[lost..])) == Newcomers(b, call.channel, JoinedBy(Logged(b, call)))
    else lost == 0 || NoEffect(b, call)
  }

  /**
   * A checkpoint that falls due while a call is being logged sees the state before the call
   * and empties the log. With all appends succeeding and checkpoints at any of the operations,
   * the call survives a crash if and only if those after the last checkpoint have its effect.
   */
  lemma AutomaticCheckpointKeepsIff(w: World, call: Call, weather: nat -> Weather)
    requires Recoverable(w) && Fair(weather) && forall i :: weather(i).appends
    ensures Recoverable(Happens(w, Calls(call, weather))) <==>
            CheckpointHarmless(w.live, call, LostOps(Logged(w.live, call), w.pending, w.limit, weather))
  {
    var ops := Logged(w.live, call);
    CallRecoverableIff(w, call, weather);
    CheckpointFate(ops, w.pending, w.limit, weather);
    SafeWhenHarmless(w, call, CallFate(w, call, weather), LostOps(ops, w.pending, w.limit, weather));
  }

  lemma SafeWhenHarmless(w: World, call: Call, f: Fate, lost: nat)
    requires KeptAfter(Logged(w.live, call), f, lost)
    ensures Safe(w, call, f) <==> CheckpointHarmless(w.live, call, lost)
  {
    if call.CallJoinChannel? {
      SafeJoin(w, call, f, lost, Logged(w.live, call));
    } else {
      SafeSingle(w, call, f, lost, Logged(w.live, call));
    }
  }

  lemma SafeJoin(w: World, call: Call, f: Fate, lost: nat, ops: seq<Op>)
    requires call.CallJoinChannel? && ops == Logged(w.live, call) && lost <= |ops| && f.kept == ops[lost..]
    ensures Safe(w, call, f) <==> CheckpointHarmless(w.live, call, lost)
  {
    JoinersLogged(w.live, call.channel, call.uids);
    var kept, all := Newcomers(w.live, call.channel, JoinedBy(f.kept)), Newcomers(w.live, call.channel, call.uids);
    assert Newcomers(w.live, call.channel, JoinedBy(ops)) == all;
    assert CheckpointHarmless(w.live, call, lost) <==> kept == all;
    assert f.kept == ops ==> kept == all;
  }

  lemma SafeSingle(w: World, call: Call, f: Fate, lost: nat, ops: seq<Op>)
    requires !call.CallJoinChannel? && ops == Logged(w.live, call) && KeptAfter(ops, f, lost)
    ensures Safe(w, call, f) <==> CheckpointHarmless(w.live, call, lost)
  {
    assert |ops| <= 1;
    if lost == 0 {
      assert f.kept == ops;
    } else {
      assert lost == |ops| && f.kept == [];
    }
  }

  // ---- Joins of different people ----

  lemma {:induction false} JoinedByConcat(a: seq<Op>, b: seq<Op>)
    ensures JoinedBy(a + b) == JoinedBy(a) + JoinedBy(b)
    decreases |b|
  {
    if b == [] {
      assert a + b == a;
    } else {
      var k := |b| - 1;
      JoinedByConcat(a, b[..k]);
      assert (a + b)[..|a| + k] == a + b[..k];
    }
  }

  lemma {:induction false} LoggedDistinct(b: State, channel: Name, uids: seq<Uid>)
    requires NoDuplicates(uids)
    ensures NoDuplicates(JoinedBy(LoggedJoins(b, channel, uids)))
    ensures forall u :: u in JoinedBy(LoggedJoins(b, channel, uids)) ==> u in uids
  {
    if uids != [] {
      var k := |uids| - 1;
      LoggedDistinct(b, channel, uids[..k]);
      assert uids[k] !in uids[..k];
      var before := LoggedJoins(b, channel, uids[..k]);
      var ops := before + [JoinChannel(channel, uids[k])];
      assert ops[..|before|] == before && before + [] == before;
    }
  }

  lemma {:induction false} IdleJoins(b: State, channel: Name, us: seq<Uid>, vs: seq<Uid>)
    requires forall u :: u in us ==> !Joins(b, channel, u)
    ensures Newcomers(b, channel, us + vs) == Newcomers(b, channel, vs)
    decreases |vs|
  {
    if vs == [] {
      assert us + vs == us;
      NobodyIsNoEffect(b, channel, us);
    } else {
      var k := |vs| - 1;
      IdleJoins(b, channel, us, vs[..k]);
      assert (us + vs)[..|us| + k] == us + vs[..k];
    }
  }

  /** When a join names nobody twice, it survives if and only if no join up to the last checkpoint had an effect. */
  lemma DistinctJoinsKeepIff(b: State, channel: Name, uids: seq<Uid>, lost: nat)
    requires NoDuplicates(uids) && lost <= |LoggedJoins(b, channel, uids)|
    ensures CheckpointHarmless(b, CallJoinChannel(channel, uids), lost) <==>
            forall u :: u in JoinedBy(LoggedJoins(b, channel, uids)[..lost]) ==> !Joins(b, channel, u)
  {
    var ops := LoggedJoins(b, channel, uids);
    var us, vs := JoinedBy(ops[..lost]), JoinedBy(ops[lost..]);
    assert ops == ops[..lost] + ops[lost..];
    JoinedByConcat(ops[..lost], ops[lost..]);
    LoggedDistinct(b, channel, uids);
    if forall u :: u in us ==> !Joins(b, channel, u) {
      IdleJoins(b, channel, us, vs);
    } else {
      var u :| u in us && Joins(b, channel, u);
      NotAgain(us, vs, u);
      assert u in Newcomers(b, channel, us + vs) && u !in Newcomers(b, channel, vs);
    }
  }

  lemma NotAgain(us: seq<Uid>, vs: seq<Uid>, u: Uid)
    requires NoDuplicates(us + vs) && u in us
    ensures u !in vs
  {
    var i :| 0 <= i < |us| && us[i] == u;
    forall j | 0 <= j < |vs| ensures vs[j] != u {
      assert (us + vs)[i] != (us + vs)[|us| + j];
    }
  }

  // ---- Concrete cases ----

  /** A first friend added while a checkpoint is due is gone after a restart. */
  lemma CheckpointLoses(origin: Uid, limit: nat, uid: Uid, addr: Bytes, trust: Byte, key: EdgeKey, weather: nat -> Weather)
    requires Fair(weather) && weather(0).timerDue && weather(0).checkpoints && forall i :: weather(i).appends
    ensures !Recoverable(Happens(Start(origin, limit), Calls(CallAddFriend(uid, addr, trust, key), weather)))
  {
    var w := Start(origin, limit);
    var call := CallAddFriend(uid, addr, trust, key);
    assert Recovered(origin, w.disk, Draws(_ => key, _ => key)) == Empty(origin);
    AutomaticCheckpointKeepsIff(w, call, weather);
    assert Logged(w.live, call)[..0] == [];
  }

  lemma TwoJoinsLogged(b: State, channel: Name, first: Uid, second: Uid)
    requires LogsJoin(b, channel, first) && LogsJoin(b, channel, second)
    ensures LoggedJoins(b, channel, [first, second]) == [JoinChannel(channel, first), JoinChannel(channel, second)]
  {
    assert [first, second][..1] == [first] && [first][..0] == [];
    assert LoggedJoins(b, channel, [first]) == [JoinChannel(channel, first)];
  }

  lemma TwoJoinedBy(channel: Name, first: Uid, second: Uid)
    ensures JoinedBy([JoinChannel(channel, first), JoinChannel(channel, second)]) == [first] + [second]
    ensures JoinedBy([JoinChannel(channel, second)]) == [second]
  {
    JoinedBySnoc([], channel, first);
    JoinedBySnoc([], channel, second);
    JoinedBySnoc([JoinChannel(channel, first)], channel, second);
    assert [] + [JoinChannel(channel, first)] == [JoinChannel(channel, first)];
    assert [] + [JoinChannel(channel, second)] == [JoinChannel(channel, second)];
  }

  lemma FirstSpared(b: State, call: Call, ops: seq<Op>, us: seq<Uid>, vs: seq<Uid>)
    requires call.CallJoinChannel? && ops == Logged(b, call) && |ops| >= 1 && JoinedBy(ops) == us + vs && JoinedBy(ops[1..]) == vs
    requires forall u :: u in us ==> !Joins(b, call.channel, u)
    ensures CheckpointHarmless(b, call, 1)
  {
    IdleJoins(b, call.channel, us, vs);
  }

  /** A checkpoint at the first of two joins loses nothing when the first person was not trusted enough to join. */
  lemma CheckpointSpares(b: State, channel: Name, first: Uid, second: Uid, call: Call)
    requires call == CallJoinChannel(channel, [first, second]) && LogsJoin(b, channel, first) && LogsJoin(b, channel, second)
    requires b.friends[first].trust < MIN_TRUST && Joins(b, channel, second)
    ensures |Logged(b, call)| == 2 && CheckpointHarmless(b, call, 1) && !NoEffect(b, call)
  {
    var ops := [JoinChannel(channel, first), JoinChannel(channel, second)];
    TwoJoinsLogged(b, channel, first, second);
    TwoJoinedBy(channel, first, second);
    assert ops[1..] == [JoinChannel(channel, second)];
    FirstSpared(b, call, Logged(b, call), [first], [second]);
    assert second in call.uids;
  }
}

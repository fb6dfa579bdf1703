/** What no step of a node ever takes back. */
module MeshOnward {
  import opened ByteStrings
  import opened RoundNetwork
  import opened MeshDriver

  predicate OwnLater(me: Uid, k: nat, m: Message) {
    m.Start? && m.leader == me && m.round > k
  }

  /** The counter does not fall, passed rounds keep their texts and deliveries stay; what is newly queued are our starts of later rounds. */
  ghost predicate Onward(me: Uid, d: Driver, d': Driver) {
    && d.current <= d'.current
    && (forall r :: r <= d.current ==> (r in d.hist.initiated <==> r in d'.hist.initiated))
    && (forall r :: r <= d.current && r in d.hist.initiated ==> d'.hist.initiated[r] == d.hist.initiated[r])
    && (forall e :: e in d.hist.delivered ==> e in d'.hist.delivered)
    && (forall e :: e in d'.pendingOutgoing && e !in d.pendingOutgoing ==> OwnLater(me, d.current, e.1))
  }

  lemma OnwardTransitive(me: Uid, a: Driver, b: Driver, c: Driver)
    requires Onward(me, a, b) && Onward(me, b, c)
    ensures Onward(me, a, c)
  {
  }

  lemma RetryOnward(x: Context, d: Driver, participants: set<Uid>, now: nat, d': Driver)
    requires d' == RetryPending(x, d, participants, now)
    ensures Onward(x.me, d, d')
  {
    if d.retries < MAX_CONFLICT_RETRIES && d.pendingMessage.Some? {
      InitiateOnward(x, d.(retries := d.retries + 1), d.pendingMessage.value, x.uidOrder(participants), now);
    }
  }

  lemma InitiateOnward(x: Context, d: Driver, text: Bytes, list: seq<Uid>, now: nat)
    ensures Onward(x.me, d, QueuedInitiate(x, d, text, list, now))
  {
  }

  lemma ExpireOneOnward(x: Context, d: Driver, id: nat, now: nat, d': Driver)
    requires d' == ExpireOne(x, d, id, now)
    ensures Onward(x.me, d, d')
  {
    var d1 := Discard(d, id);
    if id in d.collectors {
      RetryOnward(x, d1, d.collectors[id].participants, now, RetryPending(x, d1, d.collectors[id].participants, now));
    }
  }

  lemma {:induction false} ExpireAllOnward(x: Context, d: Driver, ids: seq<nat>, now: nat)
    ensures Onward(x.me, d, ExpireAll(x, d, ids, now))
    decreases |ids|
  {
    if ids != [] {
      var d1 := ExpireOne(x, d, ids[0], now);
      ExpireOneOnward(x, d, ids[0], now, d1);
      ExpireAllOnward(x, d1, ids[1..], now);
      OnwardTransitive(x.me, d, d1, ExpireAll(x, d1, ids[1..], now));
    }
  }

  lemma SettleOnward(x: Context, d: Driver, round: nat, failed: bool, participants: set<Uid>, now: nat, d': Driver)
    requires d' == Settle(x, d, round, failed, participants, now)
    ensures Onward(x.me, d, d')
  {
    var d1 := if failed then RetryPending(x, d, participants, now) else d;
    if failed {
      RetryOnward(x, d, participants, now, d1);
    }
    if d1.retryAfterPeer == Some(round) && d1.pendingMessage.Some? {
      var d2 := d1.(retryAfterPeer := None);
      RetryOnward(x, d2, participants, now, d');
      OnwardTransitive(x.me, d, d2, d');
    }
  }

  lemma StoreOnward(x: Context, d: Driver, round: nat, col: Collector, text: Option<Bytes>)
    ensures var (d1, out) := AcceptShare(x, d, round, col);
            Onward(x.me, d, d1) && Onward(x.me, d, Complete(d1, round, text).0) && forall e :: e in out ==> e.1.Share?
  {
  }

  lemma StartOnward(x: Context, d: Driver, m: Message, now: nat, d': Driver, a: Action)
    requires m.Start? && (d', a) == OnRoundStart(x, d, m, now)
    ensures Onward(x.me, d, d') && forall e :: e in a.outgoing ==> e.1.Share?
  {
  }

  lemma ShareOnward(x: Context, d: Driver, m: Message, accepted: bool, now: nat, d': Driver, a: Action)
    requires m.Share? && (d', a) == OnRoundShare(x, d, m, accepted, now)
    ensures Onward(x.me, d, d') && forall e :: e in a.outgoing ==> e.1.Share?
  {
    var stored := if accepted && m.round in d.collectors then Submit(d.collectors[m.round], m.peer, m.payload) else None;
    if stored.Some? {
      TakenOnward(x, d, m, now, stored.value, d', a);
    }
  }

  lemma TakenOnward(x: Context, d: Driver, m: Message, now: nat, col: Collector, d': Driver, a: Action)
    requires m.Share? && m.round in d.collectors && Submit(d.collectors[m.round], m.peer, m.payload) == Some(col)
    requires (d', a) == OnRoundShare(x, d, m, true, now)
    ensures Onward(x.me, d, d') && forall e :: e in a.outgoing ==> e.1.Share?
  {
    var (d1, out) := AcceptShare(x, d, m.round, col);
    var text := Decode(x.crypto, d1.collectors[m.round]);
    StoreOnward(x, d, m.round, col, text);
    if d1.collectors[m.round].IsComplete() {
      var (d2, emitted) := Complete(d1, m.round, text);
      SettleOnward(x, d2, m.round, d.pendingRound == Some(m.round) && emitted.None?, col.participants, now, d');
      OnwardTransitive(x.me, d, d2, d');
    }
  }

  lemma ReactOnward(x: Context, d: Driver, m: Message, accepted: bool, now: nat, d': Driver, a: Action)
    requires (d', a) == React(x, d, m, accepted, now)
    ensures Onward(x.me, d, d') && forall e :: e in a.outgoing ==> e.1.Share?
  {
    if m.Start? {
      StartOnward(x, d, m, now, d', a);
    } else {
      ShareOnward(x, d, m, accepted, now, d', a);
    }
  }

  /** Whatever a node receives, with nothing queued before: it goes on, and starts it sends are of rounds it had not passed. */
  lemma HandleOnward(x: Context, d: Driver, m: Message, accepted: bool, now: nat, d': Driver, a: Action)
    requires d.pendingOutgoing == {} && (d', a) == Handle(x, d, m, accepted, now)
    ensures Onward(x.me, d, d') && d'.pendingOutgoing == {}
    ensures forall e :: e in a.outgoing && e.1.Start? ==> OwnLater(x.me, d.current, e.1)
  {
    var d0 := DropExpired(x, d, now);
    var (d1, b) := React(x, d0, m, accepted, now);
    ExpireAllOnward(x, d, x.roundOrder(Expired(d, now)), now);
    ReactOnward(x, d0, m, accepted, now, d1, b);
    OnwardTransitive(x.me, d, d0, d1);
  }
}

/** Starting a round, for the first time and again: what a node can rely on. */
module MeshRestart {
  import opened ByteStrings
  import opened RoundNetwork
  import opened Cancellation
  import opened MeshDriver
  import opened MeshInvariant
  import opened MeshQuiet
  import opened Mesh

  /** Everybody holds an edge key for everybody else. */
  ghost predicate Keyed(cfg: Config) {
    forall n :: n in cfg.parties ==> n in cfg.edges && HasKeys(n, cfg.parties, cfg.edges[n])
  }

  lemma InitiationMoves(s: System, st: Step, share: Bytes, started: System)
    requires st.n in s.nodes && st.event.Initiates? && started == Apply(s, st) && st.x.me == st.n
    requires FRAME_HEADER + |st.event.text| <= CHANNEL_PAYLOAD_LEN && |st.event.list| >= 2 && st.n in st.event.list
    requires ComputeShare(st.x.crypto, s.nodes[st.n].current + 1, st.n, st.event.list, Some(st.event.text), CHANNEL_PAYLOAD_LEN, st.x.keys) == Some(share)
    ensures var (d', out) := Begin(st.x, s.nodes[st.n], st.event.text, st.event.list, share, st.now);
            started == Move(s, st.n, d', out)
  {
    InitiateIsBegin(st.x, s.nodes[st.n], st.event.text, st.event.list, st.now, share);
  }

  /** Rounds that are not our own simply disappear when they expire. */
  lemma {:induction false} ExpireOthers(x: Context, d: Driver, ids: seq<nat>, now: nat)
    requires forall id :: id in ids ==> d.pendingRound != Some(id)
    ensures ExpireAll(x, d, ids, now) == d.(collectors := d.collectors - (set id | id in ids))
    decreases |ids|
  {
    if ids == [] {
      assert d.collectors - {} == d.collectors;
    } else {
      assert ids == [ids[0]] + ids[1..];
      var d1 := d.(collectors := d.collectors - {ids[0]});
      ExpireOthers(x, d1, ids[1..], now);
      assert d1.collectors - (set id | id in ids[1..]) == d.collectors - (set id | id in ids);
    }
  }

  /** We can start a round with this text in this group. */
  ghost predicate CanInitiate(x: Context, text: Bytes, group: set<Uid>) {
    && x.Valid() && x.me in group && |group| >= 2 && HasKeys(x.me, group, x.keys)
    && FRAME_HEADER + |text| <= CHANNEL_PAYLOAD_LEN
  }

  /** The group as we list it can be started with, whatever the round. */
  ghost predicate Startable(x: Context, text: Bytes, group: set<Uid>, list: seq<Uid>) {
    && list == x.uidOrder(group) && |list| >= 2 && x.me in list && Elements(list) == group
    && FRAME_HEADER + |text| <= CHANNEL_PAYLOAD_LEN && CanShare(x.me, list, x.keys)
  }

  lemma ListedGroup(x: Context, text: Bytes, group: set<Uid>)
    requires CanInitiate(x, text, group)
    ensures Startable(x, text, group, x.uidOrder(group))
  {
    assert Enumerates(x.uidOrder(group), group);
    EnumerationSize(x.uidOrder(group), group);
  }

  /** A round of ours is waiting for shares, with the counter where a fresh initiation leaves it. */
  ghost predicate Waiting(d: Driver, text: Bytes, group: set<Uid>) {
    && d.pendingRound == Some(d.current) && d.current in d.collectors && d.collectors[d.current].participants == group
    && d.pendingMessage == Some(text) && d.retries == 0
  }

  /** The next round has been started with the same text. */
  ghost predicate Restarted(d: Driver, text: Bytes, group: set<Uid>, now: nat, d': Driver) {
    && Waiting(d', text, group) && d'.current == d.current + 1
    && d'.hist == d.hist.(initiated := d.hist.initiated[d.current + 1 := text])
    && d'.collectors[d'.current].deadline == now + CHANNEL_ROUND_DEADLINE_SECS
  }

  lemma ExpiryIsRetry(x: Context, d: Driver, text: Bytes, group: set<Uid>, now: nat)
    requires Waiting(d, text, group) && group != {}
    ensures ExpireOne(x, d, d.current, now) == RetryPending(x, Discard(d, d.current), group, now)
  {
  }

  lemma RetryIsBegin(x: Context, d: Driver, text: Bytes, group: set<Uid>, list: seq<Uid>, now: nat, share: Bytes)
    requires Startable(x, text, group, list) && d.pendingMessage == Some(text) && d.retries < MAX_CONFLICT_RETRIES
    requires ComputeShare(x.crypto, d.current + 1, x.me, list, Some(text), CHANNEL_PAYLOAD_LEN, x.keys) == Some(share)
    ensures var (d1, out) := Begin(x, d.(retries := d.retries + 1), text, list, share, now);
            RetryPending(x, d, group, now) == d1.(pendingOutgoing := d1.pendingOutgoing + out)
  {
    InitiateIsBegin(x, d.(retries := d.retries + 1), text, list, now, share);
  }

  lemma BeginWaits(x: Context, d: Driver, text: Bytes, group: set<Uid>, list: seq<Uid>, share: Bytes, now: nat, d1: Driver)
    requires Elements(list) == group && d1 == Begin(x, d, text, list, share, now).0
    ensures Restarted(d, text, group, now, d1)
  {
    assert (set u | u in list) == group;
  }

  /** Retrying starts the next round with the same text. */
  lemma RetryWaits(x: Context, d: Driver, text: Bytes, group: set<Uid>, list: seq<Uid>, now: nat, d': Driver)
    requires Startable(x, text, group, list) && d.pendingMessage == Some(text) && d.retries < MAX_CONFLICT_RETRIES
    requires d' == RetryPending(x, d, group, now)
    ensures Restarted(d, text, group, now, d')
  {
    var share := ComputeShare(x.crypto, d.current + 1, x.me, list, Some(text), CHANNEL_PAYLOAD_LEN, x.keys).value;
    RetryIsBegin(x, d, text, group, list, now, share);
    var (d1, out) := Begin(x, d.(retries := d.retries + 1), text, list, share, now);
    BeginWaits(x, d.(retries := d.retries + 1), text, group, list, share, now, d1);
  }

  lemma ExpiryRestarts(x: Context, d: Driver, text: Bytes, group: set<Uid>, list: seq<Uid>, now: nat, d': Driver)
    requires Startable(x, text, group, list) && Waiting(d, text, group) && d' == ExpireOne(x, d, d.current, now)
    ensures Restarted(d, text, group, now, d')
  {
    assert x.me in Elements(list);
    ExpiryIsRetry(x, d, text, group, now);
    RetryWaits(x, Discard(d, d.current), text, group, list, now, d');
  }
}

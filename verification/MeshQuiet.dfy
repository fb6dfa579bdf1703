/** Steps that send no share and deliver nothing: initiating, retrying, expiring. */
module MeshQuiet {
  import opened ByteStrings
  import opened RoundNetwork
  import opened Cancellation
  import opened MeshDriver
  import opened MeshInvariant

  /** The driver's share of any listing of the group is the group's payload. */
  lemma ShareIsPayload(cfg: Config, n: Uid, x: Context, round: nat, list: seq<Uid>, text: Option<Bytes>)
    requires IsGroup(cfg) && ContextOf(cfg, n, x) && Enumerates(list, cfg.parties)
    requires ComputeShare(x.crypto, round, n, list, text, CHANNEL_PAYLOAD_LEN, x.keys).Some?
    ensures HasKeys(n, cfg.parties, cfg.edges[n]) && (text.Some? ==> FRAME_HEADER + |text.value| <= CHANNEL_PAYLOAD_LEN)
    ensures ComputeShare(x.crypto, round, n, list, text, CHANNEL_PAYLOAD_LEN, x.keys).value == cfg.payload(round, n, text)
  {
    ShareOfAnyList(x.crypto, round, n, list, cfg.parties, text, CHANNEL_PAYLOAD_LEN, x.keys);
  }

  ghost predicate Quiet(d: Driver, d': Driver) {
    && d.current <= d'.current && d'.emitted == d.emitted
    && d'.hist.carried == d.hist.carried && d'.hist.delivered == d.hist.delivered
    && (forall r :: r in d.hist.initiated ==> r in d'.hist.initiated && d'.hist.initiated[r] == d.hist.initiated[r])
    && (forall r :: r in d'.hist.initiated && r !in d.hist.initiated ==> r > d.current)
    && (forall r :: r in d'.collectors ==>
          (r in d.collectors && d'.collectors[r] == d.collectors[r]) || d'.collectors[r].shares == map[])
  }

  lemma QuietTransitive(a: Driver, b: Driver, c: Driver)
    requires Quiet(a, b) && Quiet(b, c)
    ensures Quiet(a, c)
  {
  }

  lemma QuietIsGood(cfg: Config, s: System, n: Uid, d': Driver, out: Outbox)
    requires n in s.nodes && RoundsBounded(s.nodes[n]) && StoredOk(cfg, s, s.nodes[n]) && Quiet(s.nodes[n], d')
    requires forall e :: e in out ==> OwnStart(cfg, n, d'.hist, e.1)
    ensures GoodMove(cfg, s, n, d', out)
  {
    var d, s' := s.nodes[n], Move(s, n, d', out);
    forall r, v | r in d'.collectors && v in d'.collectors[r].shares
      ensures IsShareOf(cfg, s', v, r, d'.collectors[r].shares[v])
    {
      ShareKept(cfg, s, n, d', out, v, r, d.collectors[r].shares[v]);
    }
  }

  lemma QuietKeepsInv(cfg: Config, s: System, n: Uid, d': Driver, out: Outbox)
    requires Inv(cfg, s) && n in s.nodes && NodeInv(cfg, n, d') && Quiet(s.nodes[n], d')
    requires forall e :: e in out ==> OwnStart(cfg, n, d'.hist, e.1)
    ensures Inv(cfg, Move(s, n, d', out))
  {
    NodeOf(cfg, s, n);
    NodeBounded(cfg, n, s.nodes[n]);
    QuietIsGood(cfg, s, n, d', out);
    MoveKeepsInv(cfg, s, n, d', out);
  }

  // ---- Initiating and retrying ----

  lemma BeginNode(cfg: Config, n: Uid, x: Context, d: Driver, text: Bytes, list: seq<Uid>, share: Bytes, now: nat, d': Driver, out: Outbox)
    requires ContextOf(cfg, n, x) && NodeInv(cfg, n, d) && n in cfg.parties && Enumerates(list, cfg.parties)
    requires TextOk(cfg, text) && HasKeys(n, cfg.parties, cfg.edges[n]) && share == cfg.payload(d.current + 1, n, Some(text))
    requires (d', out) == Begin(x, d, text, list, share, now)
    ensures NodeInv(cfg, n, d') && Quiet(d, d')
    ensures forall e :: e in out ==> OwnStart(cfg, n, d'.hist, e.1)
  {
    assert Elements(list) == cfg.parties;
    NodeBounded(cfg, n, d);
    forall k ensures NodeHolds(k, cfg, n, d') {
      assert NodeHolds(k, cfg, n, d);
    }
  }

  lemma InitiateNode(cfg: Config, n: Uid, x: Context, d: Driver, text: Bytes, list: seq<Uid>, now: nat, d': Driver, out: Option<Outbox>)
    requires IsGroup(cfg) && ContextOf(cfg, n, x) && NodeInv(cfg, n, d) && n in cfg.parties
    requires Enumerates(list, cfg.parties) && cfg.crypto.utf8(text)
    requires (d', out) == Initiate(x, d, text, list, now)
    ensures NodeInv(cfg, n, d') && Quiet(d, d')
    ensures out.Some? ==> forall e :: e in out.value ==> OwnStart(cfg, n, d'.hist, e.1)
  {
    if |text| + FRAME_HEADER <= CHANNEL_PAYLOAD_LEN && |list| >= 2 && x.me in list {
      var share := ComputeShare(x.crypto, d.current + 1, x.me, list, Some(text), CHANNEL_PAYLOAD_LEN, x.keys);
      if share.Some? {
        ShareIsPayload(cfg, n, x, d.current + 1, list, Some(text));
        BeginNode(cfg, n, x, d, text, list, share.value, now, d', out.value);
      } else {
        SkipRound(cfg, n, d, d');
      }
    }
  }

  /** Raising the round counter alone is harmless. */
  lemma SkipRound(cfg: Config, n: Uid, d: Driver, d': Driver)
    requires NodeInv(cfg, n, d) && d'.current >= d.current && d' == d.(current := d'.current)
    ensures NodeInv(cfg, n, d') && Quiet(d, d')
  {
    forall k ensures NodeHolds(k, cfg, n, d') {
      assert NodeHolds(k, cfg, n, d);
    }
  }

  /** Fields that no clause of the invariant reads, and dropping the queued message. */
  lemma Bookkeeping(cfg: Config, n: Uid, d: Driver, d': Driver)
    requires NodeInv(cfg, n, d)
    requires d' == d.(retries := d'.retries, retryAfterPeer := d'.retryAfterPeer, pendingMessage := d'.pendingMessage, pendingOutgoing := d'.pendingOutgoing)
    requires d'.pendingMessage.Some? ==> d'.pendingMessage == d.pendingMessage
    requires forall e :: e in d'.pendingOutgoing ==> OwnStart(cfg, n, d.hist, e.1)
    ensures NodeInv(cfg, n, d') && Quiet(d, d')
  {
    forall k ensures NodeHolds(k, cfg, n, d') {
      assert NodeHolds(k, cfg, n, d);
    }
  }

  /** Initiating with the start messages kept in the outgoing buffer. */
  lemma QueuedInitiateNode(cfg: Config, n: Uid, x: Context, d: Driver, text: Bytes, list: seq<Uid>, now: nat, d': Driver)
    requires IsGroup(cfg) && ContextOf(cfg, n, x) && NodeInv(cfg, n, d) && n in cfg.parties
    requires Enumerates(list, cfg.parties) && cfg.crypto.utf8(text)
    requires d' == QueuedInitiate(x, d, text, list, now)
    ensures NodeInv(cfg, n, d') && Quiet(d, d')
  {
    var (d1, out) := Initiate(x, d, text, list, now);
    InitiateNode(cfg, n, x, d, text, list, now, d1, out);
    if out.Some? {
      NodeQueue(cfg, n, d1);
      Bookkeeping(cfg, n, d1, d');
      QuietTransitive(d, d1, d');
    }
  }

  lemma RetryNode(cfg: Config, n: Uid, x: Context, d: Driver, now: nat, d': Driver)
    requires IsGroup(cfg) && ContextOf(cfg, n, x) && NodeInv(cfg, n, d) && n in cfg.parties
    requires d' == RetryPending(x, d, cfg.parties, now)
    ensures NodeInv(cfg, n, d') && Quiet(d, d')
  {
    NodeQueue(cfg, n, d);
    NodePending(cfg, n, d);
    if d.retries >= MAX_CONFLICT_RETRIES || d.pendingMessage.None? {
      Bookkeeping(cfg, n, d, d');
    } else {
      var d1 := d.(retries := d.retries + 1);
      Bookkeeping(cfg, n, d, d1);
      QueuedInitiateNode(cfg, n, x, d1, d.pendingMessage.value, x.uidOrder(cfg.parties), now, d');
      QuietTransitive(d, d1, d');
    }
  }

  // ---- Forgetting rounds ----

  lemma DiscardNode(cfg: Config, n: Uid, d: Driver, round: nat, d': Driver)
    requires NodeInv(cfg, n, d) && d' == Discard(d, round)
    ensures NodeInv(cfg, n, d') && Quiet(d, d')
  {
    forall k ensures NodeHolds(k, cfg, n, d') {
      assert NodeHolds(k, cfg, n, d);
    }
  }

  lemma ExpireOneNode(cfg: Config, n: Uid, x: Context, d: Driver, id: nat, now: nat, d': Driver)
    requires IsGroup(cfg) && ContextOf(cfg, n, x) && NodeInv(cfg, n, d) && n in cfg.parties
    requires d' == ExpireOne(x, d, id, now)
    ensures NodeInv(cfg, n, d') && Quiet(d, d')
  {
    var d1 := Discard(d, id);
    DiscardNode(cfg, n, d, id, d1);
    if d.pendingRound == Some(id) {
      NodePending(cfg, n, d);
      NodeCollecting(cfg, n, d);
      RetryNode(cfg, n, x, d1, now, d');
      QuietTransitive(d, d1, d');
    }
  }

  lemma {:induction false} ExpireAllNode(cfg: Config, n: Uid, x: Context, d: Driver, ids: seq<nat>, now: nat, d': Driver)
    requires IsGroup(cfg) && ContextOf(cfg, n, x) && NodeInv(cfg, n, d) && n in cfg.parties
    requires d' == ExpireAll(x, d, ids, now)
    ensures NodeInv(cfg, n, d') && Quiet(d, d')
    decreases |ids|
  {
    if ids != [] {
      var d1 := ExpireOne(x, d, ids[0], now);
      ExpireOneNode(cfg, n, x, d, ids[0], now, d1);
      ExpireAllNode(cfg, n, x, d1, ids[1..], now, d');
      QuietTransitive(d, d1, d');
    }
  }

  lemma SettleNode(cfg: Config, n: Uid, x: Context, d: Driver, round: nat, failed: bool, now: nat, d': Driver)
    requires IsGroup(cfg) && ContextOf(cfg, n, x) && NodeInv(cfg, n, d) && n in cfg.parties
    requires d' == Settle(x, d, round, failed, cfg.parties, now)
    ensures NodeInv(cfg, n, d') && Quiet(d, d')
  {
    var d1 := if failed then RetryPending(x, d, cfg.parties, now) else d;
    if failed {
      RetryNode(cfg, n, x, d, now, d1);
    }
    if d1.retryAfterPeer == Some(round) {
      var d2 := d1.(retryAfterPeer := None);
      NodeQueue(cfg, n, d1);
      Bookkeeping(cfg, n, d1, d2);
      QuietTransitive(d, d1, d2);
      if d2.pendingMessage.Some? {
        RetryNode(cfg, n, x, d2, now, d');
        QuietTransitive(d, d2, d');
      }
    }
  }

  /** An initiation that is not refused. */
  lemma InitiateIsBegin(x: Context, d: Driver, text: Bytes, list: seq<Uid>, now: nat, share: Bytes)
    requires FRAME_HEADER + |text| <= CHANNEL_PAYLOAD_LEN && |list| >= 2 && x.me in list
    requires ComputeShare(x.crypto, d.current + 1, x.me, list, Some(text), CHANNEL_PAYLOAD_LEN, x.keys) == Some(share)
    ensures Initiate(x, d, text, list, now) == (Begin(x, d, text, list, share, now).0, Some(Begin(x, d, text, list, share, now).1))
  {
  }
}

/** The round driver as the object whose handlers update it in place. */
module RoundDriver {
  import opened ByteStrings
  import opened XorSum
  import opened DcNet
  import opened RoundNetwork
  import opened MeshDriver
  import opened MeshExpiry

  method DecodeText(c: Crypto, col: Collector) returns (text: Option<Bytes>)
    ensures text == Decode(c, col)
    ensures col.shares == map[] ==> text == None
    ensures col.shares != map[] ==> forall t :: text == Some(t) <==> c.utf8(t) && Unpad(c, XorAll(col.shares, col.payloadLen)) == Some(t)
  {
    var payload := ExtractMessage(col);
    if payload.None? {
      return None;
    }
    text := Unpad(c, payload.value);
    if text.Some? && !c.utf8(text.value) {
      text := None;
    }
  }

  class RoundDriver {
    var currentRound: nat
    var pendingMessage: Option<Bytes>
    var pendingRound: Option<nat>
    var retries: nat
    var collectors: map<nat, Collector>
    var emitted: set<nat>
    var myShare: Option<Bytes>
    var myShareBroadcast: bool
    var pendingOutgoing: Outbox
    var retryAfterPeer: Option<nat>
    ghost var hist: History

    ghost function View(): Driver
      reads this
    {
      Driver(currentRound, pendingMessage, pendingRound, retries, collectors, emitted, myShare,
             myShareBroadcast, pendingOutgoing, retryAfterPeer, hist)
    }

    constructor ()
      ensures View() == NewDriver
    {
      currentRound, pendingMessage, pendingRound, retries := 0, None, None, 0;
      collectors, emitted, myShare, myShareBroadcast := map[], {}, None, false;
      pendingOutgoing, retryAfterPeer := {}, None;
      hist := NewDriver.hist;
    }

    method InitiateRound(x: Context, text: Bytes, participants: seq<Uid>, now: nat) returns (out: Option<Outbox>)
      modifies this
      ensures (View(), out) == Initiate(x, old(View()), text, participants, now)
      ensures out.Some? <==> FRAME_HEADER + |text| <= CHANNEL_PAYLOAD_LEN && |participants| >= 2 && x.me in participants
                             && forall u :: u in participants && u != x.me ==> u in x.keys
      ensures out.None? ==> View() == old(View()).(current := old(currentRound) +
                if FRAME_HEADER + |text| <= CHANNEL_PAYLOAD_LEN && |participants| >= 2 && x.me in participants then 1 else 0)
    {
      if |text| + FRAME_HEADER > CHANNEL_PAYLOAD_LEN || |participants| < 2 || x.me !in participants {
        return None;
      }
      var share := ComputeXorShareSecure(x.crypto, currentRound + 1, x.me, participants, Some(text), CHANNEL_PAYLOAD_LEN, x.keys);
      if share.None? {
        currentRound := currentRound + 1;
        return None;
      }
      var started := BeginRound(x, text, participants, share.value, now);
      out := Some(started);
    }

    method BeginRound(x: Context, text: Bytes, participants: seq<Uid>, share: Bytes, now: nat) returns (out: Outbox)
      modifies this
      ensures (View(), out) == Begin(x, old(View()), text, participants, share, now)
    {
      currentRound := currentRound + 1;
      var col := NewCollector(currentRound, participants, CHANNEL_ROUND_DEADLINE_SECS, CHANNEL_PAYLOAD_LEN, now);
      collectors, retries := collectors[currentRound := col], 0;
      pendingMessage, pendingRound := Some(text), Some(currentRound);
      myShare, myShareBroadcast := Some(share), false;
      hist := hist.(initiated := hist.initiated[currentRound := text]);
      out := ToOthers(Elements(participants), x.me,
                      Start(currentRound, x.me, participants, CHANNEL_ROUND_DEADLINE_SECS, CHANNEL_PAYLOAD_LEN));
    }

    method Retry(x: Context, participants: set<Uid>, now: nat)
      modifies this
      ensures View() == RetryPending(x, old(View()), participants, now)
    {
      if retries >= MAX_CONFLICT_RETRIES {
        pendingMessage := None;
        return;
      }
      retries := retries + 1;
      if pendingMessage.None? {
        return;
      }
      var out := InitiateRound(x, pendingMessage.value, x.uidOrder(participants), now);
      if out.Some? {
        pendingOutgoing := pendingOutgoing + out.value;
      }
    }

    method Abort()
      modifies this
      ensures View() == AbortPending(old(View()))
    {
      if pendingRound.Some? {
        collectors := collectors - {pendingRound.value};
        pendingRound := None;
      }
      myShare := None;
      myShareBroadcast := false;
    }

    method ExpireRound(x: Context, id: nat, now: nat)
      modifies this
      ensures View() == ExpireOne(x, old(View()), id, now)
    {
      var wasMine := pendingRound == Some(id);
      var participants := if id in collectors then collectors[id].participants else {};
      collectors := collectors - {id};
      if wasMine {
        pendingRound := None;
        myShare := None;
        myShareBroadcast := false;
        if participants != {} {
          Retry(x, participants, now);
        }
      }
    }

    method Drop(x: Context, now: nat)
      modifies this
      ensures View() == DropExpired(x, old(View()), now)
      ensures x.Valid() ==> forall id: nat :: id <= old(currentRound) ==>
                (id in collectors <==> id in old(collectors) && now < old(collectors)[id].deadline)
    {
      var expired := x.roundOrder(set id | id in collectors && collectors[id].IsExpired(now));
      ghost var before := View();
      assert expired == expired[0..];
      for i := 0 to |expired|
        invariant ExpireAll(x, View(), expired[i..], now) == ExpireAll(x, before, expired, now)
      {
        assert expired[i..][1..] == expired[i + 1..];
        ExpireRound(x, expired[i], now);
      }
      if x.Valid() {
        forall id: nat | id <= before.current ensures id in collectors <==> id in before.collectors && now < before.collectors[id].deadline {
          DropsExactly(x, before, now, View(), id);
        }
      }
    }

    method HandleStart(x: Context, m: Message, now: nat) returns (a: Action)
      requires m.Start?
      modifies this
      ensures (View(), a) == OnRoundStart(x, old(View()), m, now)
      ensures m.round != old(currentRound) + 1 && !(old(pendingRound) == Some(m.round) && Less(m.leader, x.me)) ==>
                View() == old(View()) && a == NoAction
      ensures m.round == old(currentRound) + 1 ==>
                currentRound == m.round && pendingRound == old(pendingRound) && retryAfterPeer == old(retryAfterPeer)
      ensures m.round != old(currentRound) + 1 && old(pendingRound) == Some(m.round) && Less(m.leader, x.me) && m.leader != x.me ==>
                currentRound == old(currentRound) && pendingRound == None && myShare == None && retryAfterPeer == Some(m.round)
      ensures pendingMessage == old(pendingMessage) && retries == old(retries) && emitted == old(emitted) && a.extracted == None
      ensures x.me !in m.participants || |m.participants| < 2 || (exists u :: u in m.participants && u != x.me && u !in x.keys) ==>
                a == NoAction && (collectors == old(collectors) || collectors == old(collectors) - {m.round})
    {
      a := NoAction;
      if m.round == currentRound + 1 {
        currentRound := m.round;
      } else if pendingRound == Some(m.round) && m.leader != x.me && Less(m.leader, x.me) {
        Abort();
        retryAfterPeer := Some(m.round);
      } else {
        return;
      }
      if x.me !in m.participants {
        return;
      }
      var share := ComputeXorShareSecure(x.crypto, m.round, x.me, m.participants, None, m.payloadLen, x.keys);
      if share.None? {
        return;
      }
      var col := NewCollector(m.round, m.participants, m.deadlineSecs, m.payloadLen, now);
      var own := Submit(col, x.me, share.value);
      collectors := collectors[m.round := if own.Some? then own.value else col];
      hist := Transmit(hist, m.round, None);
      a := Action(None, ToOthers(Elements(m.participants), x.me, Share(m.round, x.me, share.value)));
    }

    /** Stores a submitted share and broadcasts ours once it is the only one missing. */
    method StoreShare(x: Context, round: nat, col: Collector) returns (out: Outbox)
      requires round in collectors
      modifies this
      ensures (View(), out) == AcceptShare(x, old(View()), round, col)
    {
      out := {};
      if pendingRound != Some(round) || myShareBroadcast || col.Missing() != {x.me} || myShare.None? {
        collectors := collectors[round := col];
      } else {
        var own := Submit(col, x.me, myShare.value);
        collectors := collectors[round := if own.Some? then own.value else col];
        myShareBroadcast := true;
        hist := Transmit(hist, round, InitiatedText(old(View()), round));
        out := ToOthers(col.participants, x.me, Share(round, x.me, myShare.value));
      }
    }

    method FinishRound(round: nat, bytes: Option<Bytes>) returns (text: Option<(nat, Bytes)>)
      modifies this
      ensures (View(), text) == Complete(old(View()), round, bytes)
    {
      text := None;
      if bytes.Some? && round !in emitted {
        emitted := emitted + {round};
        text := Some((round, bytes.value));
        hist := hist.(delivered := hist.delivered + multiset{(round, bytes.value)});
      }
      collectors := collectors - {round};
      if pendingRound == Some(round) {
        pendingRound := None;
        myShare := None;
        myShareBroadcast := false;
        if text.Some? {
          pendingMessage := None;
        }
      }
    }

    /** A share that passed the signature check. */
    method TakeShare(x: Context, m: Message, now: nat) returns (a: Action)
      requires m.Share?
      modifies this
      ensures (View(), a) == OnRoundShare(x, old(View()), m, true, now)
    {
      a := NoAction;
      if m.round !in collectors {
        return;
      }
      var col := Submit(collectors[m.round], m.peer, m.payload);
      if col.None? {
        return;
      }
      var mine := pendingRound == Some(m.round);
      var out := StoreShare(x, m.round, col.value);
      var text: Option<(nat, Bytes)> := None;
      if collectors[m.round].IsComplete() {
        var bytes := DecodeText(x.crypto, collectors[m.round]);
        text := FinishRound(m.round, bytes);
        SettleRound(x, m.round, mine && text.None?, col.value.participants, now);
      }
      a := Action(text, out);
    }

    /** Retries our round that failed, and our message that gave way to a round now complete. */
    method SettleRound(x: Context, round: nat, failed: bool, participants: set<Uid>, now: nat)
      modifies this
      ensures View() == Settle(x, old(View()), round, failed, participants, now)
    {
      if failed {
        Retry(x, participants, now);
      }
      if retryAfterPeer == Some(round) {
        retryAfterPeer := None;
        if pendingMessage.Some? {
          Retry(x, participants, now);
        }
      }
    }

    method HandleShare(x: Context, auth: Authenticator, m: Message, signature: Bytes, now: nat) returns (a: Action)
      requires m.Share?
      modifies this
      ensures (View(), a) == OnRoundShare(x, old(View()), m, auth.Accepts(m.round, m.peer, m.payload, signature), now)
      ensures m.peer in auth.known && auth.parses(auth.known[m.peer])
              && !auth.verify(auth.known[m.peer], ShareSignatureMessage(auth.channel, m.round, m.payload), signature) ==>
                View() == old(View()) && a == NoAction
      ensures m.peer !in auth.known || !auth.parses(auth.known[m.peer])
              || auth.verify(auth.known[m.peer], ShareSignatureMessage(auth.channel, m.round, m.payload), signature) ==>
                (View(), a) == OnRoundShare(x, old(View()), m, true, now)
    {
      if !auth.Accepts(m.round, m.peer, m.payload, signature) {
        return NoAction;
      }
      a := TakeShare(x, m, now);
    }

    /** Only shares carry a signature. */
    method HandleMessage(x: Context, auth: Authenticator, m: Message, signature: Bytes, now: nat) returns (a: Action)
      modifies this
      ensures (View(), a) == Handle(x, old(View()), m, m.Share? && auth.Accepts(m.round, m.peer, m.payload, signature), now)
    {
      Drop(x, now);
      if m.Start? {
        a := HandleStart(x, m, now);
      } else {
        a := HandleShare(x, auth, m, signature, now);
      }
      a := a.(outgoing := a.outgoing + pendingOutgoing);
      pendingOutgoing := {};
    }
  }
}

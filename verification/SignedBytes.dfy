/** All signatures of an identity are made with one key; what they cover keeps their purposes apart. */
module SignedBytes {
  import opened ByteStrings
  import opened RoundNetwork
  import opened RelayForwarding
  import opened WebOfTrust

  /** No share signature, relay signature and trust signature ever cover the same bytes, so none can stand for another. */
  lemma PurposesApart(channel: Bytes, round: nat, share: Bytes, p: Packet, subject: Bytes, level: Byte, timestamp: nat)
    ensures ShareSignatureMessage(channel, round, share) != SignedPart(p)
    ensures ShareSignatureMessage(channel, round, share) != SignatureMessage(subject, level, timestamp)
    ensures SignedPart(p) != SignatureMessage(subject, level, timestamp)
  {
    ShareByte(channel, round, share, ShareSignatureMessage(channel, round, share));
    RelayByte(p, SignedPart(p));
    TrustByte(subject, level, timestamp, SignatureMessage(subject, level, timestamp));
  }

  // The domain strings differ in their eighth character.

  lemma ShareByte(channel: Bytes, round: nat, share: Bytes, m: Bytes)
    requires m == ShareSignatureMessage(channel, round, share)
    ensures |m| > 7 && m[7] == 'd' as int
  {
    assert "chrono-dcnet-share-v1"[7] == 'd';
  }

  lemma RelayByte(p: Packet, m: Bytes)
    requires m == SignedPart(p)
    ensures |m| > 7 && m[7] == 'r' as int
  {
    assert "chrono-relay-v1"[7] == 'r';
  }

  lemma TrustByte(subject: Bytes, level: Byte, timestamp: nat, m: Bytes)
    requires m == SignatureMessage(subject, level, timestamp)
    ensures |m| > 7 && m[7] == 'w' as int
  {
    assert "chrono-wot-sign-v1"[7] == 'w';
  }
}

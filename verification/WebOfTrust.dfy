/** The Web of Trust: signed keys, computed trust levels and their cache. */
module WebOfTrust {
  import opened ByteStrings
  import opened TrustGraph

  datatype Identity = Identity(userId: Bytes, publicKeyHex: Bytes, fingerprint: Fingerprint)

  /** The bytes a trust signature covers. */
  function SignatureMessage(subject: Fingerprint, level: Byte, timestamp: nat): (m: Bytes)
    ensures |m| == 31 + |subject|
  {
    Ascii("chrono-wot-sign-v1") + U32(|subject|) + subject + [level] + U64(timestamp)
  }

  lemma MessageParts(subject: Fingerprint, level: Byte, timestamp: nat)
    ensures var m, n := SignatureMessage(subject, level, timestamp), 22 + |subject|;
            m[22..n] == subject && m[n] == level && m[n + 1..] == U64(timestamp)
  {
  }

  /** No two statements share the bytes that are signed. */
  lemma SignatureMessageInjective(a: Fingerprint, la: Byte, ta: nat, b: Fingerprint, lb: Byte, tb: nat)
    requires SignatureMessage(a, la, ta) == SignatureMessage(b, lb, tb)
    requires ta < 0x1_0000_0000_0000_0000 && tb < 0x1_0000_0000_0000_0000
    ensures a == b && la == lb && ta == tb
  {
    MessageParts(a, la, ta);
    MessageParts(b, lb, tb);
    U64RoundTrip(ta);
    U64RoundTrip(tb);
  }

  /** The graph's content; `verify` checks (public key, message, signature bytes). */
  datatype Web = Web(
    keys: map<Fingerprint, Identity>,
    signatures: seq<Signature>,
    own: set<Fingerprint>,
    overrides: Trust,
    verify: (Bytes, Bytes, Bytes) -> bool)

  predicate SignatureIsValid(w: Web, sig: Signature) {
    sig.signer in w.keys && w.verify(w.keys[sig.signer].publicKeyHex, SignatureMessage(sig.subject, sig.level, sig.timestamp), sig.data)
  }

  function ValidSignatures(w: Web, sigs: seq<Signature>): seq<Signature> {
    if sigs == [] then []
    else
      var k := |sigs| - 1;
      ValidSignatures(w, sigs[..k]) + if SignatureIsValid(w, sigs[k]) then [sigs[k]] else []
  }

  lemma {:induction false} ValidOnes(w: Web, sigs: seq<Signature>, sig: Signature)
    ensures sig in ValidSignatures(w, sigs) <==> sig in sigs && SignatureIsValid(w, sig)
  {
    if sigs != [] {
      var k := |sigs| - 1;
      assert sigs == sigs[..k] + [sigs[k]];
      ValidOnes(w, sigs[..k], sig);
    }
  }

  /** A signature on file that does not verify under its signer's key, or whose signer is unknown, has no effect on anybody's trust. */
  lemma ForgedIgnored(w: Web, sig: Signature, w': Web)
    requires w' == w.(signatures := w.signatures + [sig])
    requires sig.signer in w.keys ==>
               !w.verify(w.keys[sig.signer].publicKeyHex, SignatureMessage(sig.subject, sig.level, sig.timestamp), sig.data)
    ensures GraphOf(w') == GraphOf(w)
  {
    SameValidity(w, w', w.signatures + [sig]);
    ValidSnoc(w, w.signatures, sig);
  }

  /** One that does verify is among those that are counted. */
  lemma VerifiedCounted(w: Web, i: nat)
    requires i < |w.signatures| && w.signatures[i].signer in w.keys
    requires var sig := w.signatures[i];
             w.verify(w.keys[sig.signer].publicKeyHex, SignatureMessage(sig.subject, sig.level, sig.timestamp), sig.data)
    ensures w.signatures[i] in GraphOf(w).sigs
  {
    ValidOnes(w, w.signatures, w.signatures[i]);
  }

  /** Our own keys are Ultimate, unless overridden. */
  function BaseLevels(w: Web): Trust {
    (map fp | fp in w.own :: Ultimate) + w.overrides
  }

  function GraphOf(w: Web): (g: Graph)
    ensures g.Valid()
  {
    Graph(BaseLevels(w), w.keys.Keys - w.own - w.overrides.Keys, ValidSignatures(w, w.signatures))
  }

  /** The trust level of a fingerprint as the least fixpoint defines it. */
  ghost function TrustOf(w: Web, fp: Fingerprint): Level {
    LevelOf(TrustMap(GraphOf(w)), fp)
  }

  /** Overrides come before own keys, and keys never seen are Unknown. */
  lemma Precedence(w: Web, fp: Fingerprint)
    ensures fp in w.overrides ==> TrustOf(w, fp) == w.overrides[fp]
    ensures fp !in w.overrides && fp in w.own ==> TrustOf(w, fp) == Ultimate
    ensures fp !in w.overrides && fp !in w.own && fp !in w.keys ==> TrustOf(w, fp) == Unknown
    ensures fp !in w.overrides && fp !in w.own ==> Unknown <= TrustOf(w, fp) <= Full
  {
    var g := GraphOf(w);
    assert IsLeast(g, TrustMap(g));
    if fp in w.overrides || fp in w.own {
      assert fp in g.base;
    } else if fp in w.keys {
      assert fp in g.nodes;
    }
  }

  lemma {:induction false} ValidKeepsOnce(w: Web, sigs: seq<Signature>)
    requires OncePerPair(sigs)
    ensures OncePerPair(ValidSignatures(w, sigs))
  {
    if sigs != [] {
      var k := |sigs| - 1;
      ValidKeepsOnce(w, sigs[..k]);
      var rest := ValidSignatures(w, sigs[..k]);
      forall i | 0 <= i < |rest| ensures rest[i].signer != sigs[k].signer || rest[i].subject != sigs[k].subject {
        ValidOnes(w, sigs[..k], rest[i]);
      }
    }
  }

  /** In a web built through the public calls, computed trust obeys the documented rule. */
  lemma TrustFollowsSigners(w: Web, fp: Fingerprint)
    requires OncePerPair(w.signatures) && fp in w.keys && fp !in w.own && fp !in w.overrides
    ensures TrustOf(w, fp) == SignerRated(GraphOf(w).sigs, TrustMap(GraphOf(w)), fp)
  {
    var g := GraphOf(w);
    ValidKeepsOnce(w, w.signatures);
    assert fp in g.nodes && IsLeast(g, TrustMap(g));
    RatedMeaning(g.sigs, TrustMap(g), fp);
  }

  /**
   * A loaded file that holds one valid Marginal signature of an own key twice, and nothing
   * else, makes Full what the documented rule makes Marginal, whatever Ed25519 accepts.
   */
  lemma RepeatedSignatureOverrates(w: Web, sig: Signature)
    requires w.signatures == [sig, sig] && sig.level == 1 && SignatureIsValid(w, sig)
    requires sig.signer in w.own && sig.signer !in w.overrides
    requires sig.subject in w.keys && sig.subject !in w.own && sig.subject !in w.overrides
    ensures TrustOf(w, sig.subject) == Full
    ensures SignerRated(GraphOf(w).sigs, TrustMap(GraphOf(w)), sig.subject) == Marginal
  {
    var g, fp := GraphOf(w), sig.subject;
    var t := TrustMap(g);
    DoubledIsValid(w, sig);
    assert IsLeast(g, t) && fp in g.nodes && sig.signer in g.base && LevelOf(t, sig.signer) == Ultimate;
    SupportTwo(g.sigs, t, fp, Marginal);
    assert Supports(g.sigs, t, fp, Marginal, 0) && Supports(g.sigs, t, fp, Marginal, 1);
    assert Vouches(g.sigs, t, sig.signer, fp, Marginal);
  }

  lemma DoubledIsValid(w: Web, sig: Signature)
    requires w.signatures == [sig, sig] && SignatureIsValid(w, sig)
    ensures GraphOf(w).sigs == [sig, sig]
  {
    assert [sig, sig][..1] == [sig] && [sig][..0] == [];
    assert ValidSignatures(w, [sig]) == ValidSignatures(w, []) + [sig];
  }

  // ---- Signatures on oneself ----

  /** A self-signature makes the difference for a key that is just Marginal without it. */
  ghost predicate SelfMatters(w: Web, sig: Signature) {
    && sig.subject in w.keys && sig.subject !in w.own && sig.subject !in w.overrides
    && Granted(sig.level) >= Marginal && TrustOf(w, sig.subject) == Marginal
  }

  lemma SupportSnoc(sigs: seq<Signature>, sig: Signature, t: Trust, fp: Fingerprint, min: Level)
    ensures Support(sigs + [sig], t, fp, min) ==
            Support(sigs, t, fp, min) + if sig.subject == fp && Contribution(t, sig) >= min then 1 else 0
  {
    assert (sigs + [sig])[..|sigs|] == sigs;
  }

  lemma RatedSnoc(g: Graph, g': Graph, sig: Signature, t: Trust)
    requires g'.sigs == g.sigs + [sig] && sig.signer == sig.subject
    ensures forall fp :: fp != sig.subject ==> Rated(g'.sigs, t, fp) == Rated(g.sigs, t, fp)
    ensures LevelOf(t, sig.subject) < Marginal || Granted(sig.level) < Marginal ==>
              Rated(g'.sigs, t, sig.subject) == Rated(g.sigs, t, sig.subject)
    ensures LevelOf(t, sig.subject) >= Marginal && Granted(sig.level) >= Marginal && Rated(g.sigs, t, sig.subject) >= Marginal ==>
              Rated(g'.sigs, t, sig.subject) == Full
  {
    forall fp, min ensures Support(g'.sigs, t, fp, min) ==
                           Support(g.sigs, t, fp, min) + if sig.subject == fp && Contribution(t, sig) >= min then 1 else 0 {
      SupportSnoc(g.sigs, sig, t, fp, min);
    }
  }

  /** Unless it matters, a self-signature leaves the whole trust map as it is. */
  lemma IdleSelfSignature(g: Graph, g': Graph, sig: Signature)
    requires g.Valid() && g'.Valid() && g'.base == g.base && g'.nodes == g.nodes && g'.sigs == g.sigs + [sig] && sig.signer == sig.subject
    requires sig.subject in g.nodes ==> LevelOf(TrustMap(g), sig.subject) != Marginal || Granted(sig.level) < Marginal
    ensures TrustMap(g') == TrustMap(g)
  {
    var t := TrustMap(g);
    RatedSnoc(g, g', sig, t);
    forall fp | fp in g'.nodes ensures LevelOf(t, fp) == Rated(g'.sigs, t, fp) {
      assert LevelOf(t, fp) == Rated(g.sigs, t, fp);
      if fp == sig.subject && LevelOf(t, fp) == Full {
        SupportSnoc(g.sigs, sig, t, fp, Full);
        SupportSnoc(g.sigs, sig, t, fp, Marginal);
      }
    }
    assert Weaker(g.sigs, g'.sigs) by {
      forall a, fp, min ensures Support(g.sigs, a, fp, min) <= Support(g'.sigs, a, fp, min) {
        SupportSnoc(g.sigs, sig, a, fp, min);
      }
    }
    WeakerLowers(g, g');
    assert Closed(g', t);
    assert Below(TrustMap(g'), t) && Below(t, TrustMap(g'));
    SameLevels(g', TrustMap(g'), t);
  }

  lemma SameLevels(g: Graph, t: Trust, t': Trust)
    requires Below(t, t') && Below(t', t) && Canonical(g, t) && Canonical(g, t')
    ensures t == t'
  {
    forall fp ensures (fp in t <==> fp in t') && (fp in t ==> t[fp] == t'[fp]) {
      assert LevelOf(t, fp) <= LevelOf(t', fp) && LevelOf(t', fp) <= LevelOf(t, fp);
    }
  }

  /**
   * A key's valid signature on itself, added to a web, changes its trust if and only if it
   * grants at least Marginal and the key was exactly Marginal; then the key becomes Full.
   * Otherwise no key's trust changes.
   */
  lemma SelfSignatureMatters(w: Web, sig: Signature, w': Web)
    requires sig.signer == sig.subject && SignatureIsValid(w, sig) && w' == w.(signatures := w.signatures + [sig])
    ensures TrustOf(w', sig.subject) != TrustOf(w, sig.subject) <==> SelfMatters(w, sig)
    ensures SelfMatters(w, sig) ==> TrustOf(w', sig.subject) == Full
    ensures !SelfMatters(w, sig) ==> TrustMap(GraphOf(w')) == TrustMap(GraphOf(w))
  {
    var g, g' := GraphOf(w), GraphOf(w');
    SameValidity(w, w', w.signatures + [sig]);
    ValidSnoc(w, w.signatures, sig);
    if SelfMatters(w, sig) {
      AddingRaises(w, sig);
      SelfRaises(g, g', sig);
    } else {
      IdleSelfSignature(g, g', sig);
    }
  }

  lemma SelfRaises(g: Graph, g': Graph, sig: Signature)
    requires g.Valid() && g'.Valid() && g'.base == g.base && g'.nodes == g.nodes && g'.sigs == g.sigs + [sig] && sig.signer == sig.subject
    requires sig.subject in g.nodes && Granted(sig.level) >= Marginal && LevelOf(TrustMap(g), sig.subject) == Marginal
    requires Below(TrustMap(g), TrustMap(g'))
    ensures LevelOf(TrustMap(g'), sig.subject) == Full
  {
    var t, t', fp := TrustMap(g), TrustMap(g'), sig.subject;
    assert LevelOf(t, fp) == Rated(g.sigs, t, fp) && LevelOf(t, fp) <= LevelOf(t', fp);
    RatedMonotone(g.sigs, t, t', fp);
    RatedSnoc(g, g', sig, t');
  }

  lemma OneMarginal(w: Web, sig: Signature)
    requires w.signatures == [sig] && sig.level == 1 && SignatureIsValid(w, sig)
    requires sig.signer in w.own && sig.signer !in w.overrides
    requires sig.subject in w.keys && sig.subject !in w.own && sig.subject !in w.overrides
    ensures TrustOf(w, sig.subject) == Marginal
  {
    var g, fp := GraphOf(w), sig.subject;
    var t := TrustMap(g);
    assert [sig][..0] == [] && ValidSignatures(w, []) == [] && g.sigs == [] + [sig];
    assert IsLeast(g, t) && fp in g.nodes && sig.signer in g.base && LevelOf(t, sig.signer) == Ultimate;
    SupportSnoc([], sig, t, fp, Full);
    SupportSnoc([], sig, t, fp, Marginal);
  }

  /**
   * An own key grants only Marginal, which by the documentation leaves the subject Marginal;
   * with the subject's signature on itself, which is accepted like any other, it is Full.
   */
  lemma SelfSignatureLifts(w: Web, sig: Signature, self: Signature, w': Web)
    requires w.signatures == [sig] && sig.level == 1 && SignatureIsValid(w, sig)
    requires sig.signer in w.own && sig.signer in w.keys && sig.signer !in w.overrides
    requires sig.subject in w.keys && sig.subject !in w.own && sig.subject !in w.overrides
    requires self.signer == self.subject == sig.subject && Granted(self.level) >= Marginal && SignatureIsValid(w, self)
    requires w' == w.(signatures := w.signatures + [self])
    ensures TrustOf(w, sig.subject) == Marginal && Accepts(w, self) && TrustOf(w', sig.subject) == Full
  {
    OneMarginal(w, sig);
    SelfSignatureMatters(w, self, w');
  }

  // ---- compute_trust_map ----

  /** Counts the contributions to one key and rates it. */
  method RateKey(sigs: seq<Signature>, trust: Trust, fp: Fingerprint) returns (level: Level)
    ensures level == Rated(sigs, trust, fp)
  {
    var full, marginal := 0, 0;
    for i := 0 to |sigs|
      invariant full == Support(sigs[..i], trust, fp, Full)
      invariant full + marginal == Support(sigs[..i], trust, fp, Marginal)
    {
      assert sigs[..i + 1][..i] == sigs[..i];
      if sigs[i].subject != fp {
        continue;
      }
      var contribution := Contribution(trust, sigs[i]);
      if contribution >= Full {
        full := full + 1;
      } else if contribution >= Marginal {
        marginal := marginal + 1;
      }
    }
    assert sigs[..|sigs|] == sigs;
    level := if full >= 1 || marginal >= 2 then Full else if marginal >= 1 then Marginal else Unknown;
  }

  /** One pass over all keys in some order, updating the map in place. */
  method Sweep(w: Web, sigs: seq<Signature>, before: Trust) returns (trust: Trust, changed: bool)
    requires sigs == GraphOf(w).sigs && Climbing(GraphOf(w), before)
    ensures Climbing(GraphOf(w), trust) && Below(before, trust)
    ensures changed ==> Height(before, GraphOf(w).nodes) < Height(trust, GraphOf(w).nodes)
    ensures !changed ==> IsLeast(GraphOf(w), trust)
  {
    ghost var g := GraphOf(w);
    trust, changed := before, false;
    var left := w.keys.Keys;
    while left != {}
      invariant left <= w.keys.Keys && Climbing(g, trust) && Below(before, trust)
      invariant changed ==> Height(before, g.nodes) < Height(trust, g.nodes)
      invariant !changed ==> trust == before && forall fp :: fp in g.nodes && fp !in left ==> LevelOf(trust, fp) == Rated(sigs, trust, fp)
      decreases |left|
    {
      var fp :| fp in left;
      left := left - {fp};
      if fp in w.own || fp in w.overrides {
        continue;
      }
      var level := RateKey(sigs, trust, fp);
      if level != LevelOf(trust, fp) {
        ghost var was := trust;
        trust := trust[fp := level];
        changed := true;
        Raise(g, was, fp, trust);
        HeightGrows(was, trust, g.nodes, fp);
        HeightGrows(before, was, g.nodes, fp);
        BelowTransitive(before, was, trust);
      }
    }
    if !changed {
      StableIsLeast(g, trust);
    }
  }

  lemma BelowTransitive(a: Trust, b: Trust, c: Trust)
    requires Below(a, b) && Below(b, c)
    ensures Below(a, c)
  {
    forall fp ensures LevelOf(a, fp) <= LevelOf(c, fp) {
      assert LevelOf(a, fp) <= LevelOf(b, fp) <= LevelOf(c, fp);
    }
  }

  /**
   * Sweeps until nothing changes. Whatever order each pass visits the keys in, the
   * result is the least fixpoint, reached within 2 * |keys| + 1 passes.
   */
  method ComputeTrustMap(w: Web) returns (trust: Trust, passes: nat)
    ensures trust == TrustMap(GraphOf(w))
    ensures passes <= 2 * |w.keys| + 1
  {
    ghost var g := GraphOf(w);
    trust, passes := BaseLevels(w), 0;
    var sigs := ValidSignatures(w, w.signatures);
    StartClimbing(g);
    HeightBound(g, trust, g.nodes);
    var changed := true;
    while changed
      invariant Climbing(g, trust)
      invariant changed ==> passes <= Height(trust, g.nodes)
      invariant !changed ==> IsLeast(g, trust) && passes <= Height(trust, g.nodes) + 1
      decreases changed, 2 * |g.nodes| - Height(trust, g.nodes)
    {
      ghost var was := trust;
      trust, changed := Sweep(w, sigs, trust);
      passes := passes + 1;
      HeightBound(g, trust, g.nodes);
      HeightGrows(was, trust, g.nodes, []);
    }
    LeastUnique(g, trust, TrustMap(g));
    HeightBound(g, trust, g.nodes);
    SubsetSize(g.nodes, w.keys.Keys);
  }

  // ---- The object ----

  class WebOfTrust {
    var keys: map<Fingerprint, Identity>
    var signatures: seq<Signature>
    var own: set<Fingerprint>
    var overrides: Trust
    var cache: Trust
    var cacheValid: bool
    const verify: (Bytes, Bytes, Bytes) -> bool

    function View(): Web
      reads this
    {
      Web(keys, signatures, own, overrides, verify)
    }

    /** A cache that claims to be valid holds the least fixpoint of the current graph. */
    ghost predicate Valid()
      reads this
    {
      cacheValid ==> cache == TrustMap(GraphOf(View()))
    }

    constructor (verify: (Bytes, Bytes, Bytes) -> bool)
      ensures Valid() && View() == Web(map[], [], {}, map[], verify)
    {
      this.verify := verify;
      keys, signatures, own, overrides := map[], [], {}, map[];
      cache, cacheValid := map[], false;
    }

    method InvalidateCache()
      modifies this`cache, this`cacheValid
      ensures Valid() && View() == old(View())
    {
      cacheValid := false;
      cache := map[];
    }

    method AddOwnKey(id: Identity)
      modifies this
      ensures Valid()
      ensures View() == old(View()).(own := old(own) + {id.fingerprint}, keys := old(keys)[id.fingerprint := id])
    {
      own := own + {id.fingerprint};
      keys := keys[id.fingerprint := id];
      InvalidateCache();
    }

    method AddKey(id: Identity)
      modifies this
      ensures Valid()
      ensures View() == old(View()).(keys := old(keys)[id.fingerprint := id])
    {
      keys := keys[id.fingerprint := id];
      InvalidateCache();
    }

    /** Accepts a signature exactly when both keys are known, the pair is new and the signature verifies. */
    method AddSignature(sig: Signature) returns (accepted: bool)
      requires Valid()
      modifies this
      ensures Valid()
      ensures accepted == Accepts(old(View()), sig)
      ensures accepted <==>
                && sig.signer in old(keys) && sig.subject in old(keys)
                && verify(old(keys)[sig.signer].publicKeyHex, SignatureMessage(sig.subject, sig.level, sig.timestamp), sig.data)
                && forall i :: 0 <= i < |old(signatures)| ==> old(signatures)[i].signer != sig.signer || old(signatures)[i].subject != sig.subject
      ensures View() == if accepted then old(View()).(signatures := old(signatures) + [sig]) else old(View())
      ensures OncePerPair(old(signatures)) ==> OncePerPair(signatures)
      ensures forall fp :: TrustOf(old(View()), fp) <= TrustOf(View(), fp)
    {
      if sig.signer !in keys || sig.subject !in keys {
        return false;
      }
      if exists i | 0 <= i < |signatures| :: signatures[i].signer == sig.signer && signatures[i].subject == sig.subject {
        return false;
      }
      if !SignatureIsValid(View(), sig) {
        return false;
      }
      ghost var w := View();
      signatures := signatures + [sig];
      InvalidateCache();
      AddingRaises(w, sig);
      accepted := true;
    }

    method RemoveSignature(signer: Fingerprint, subject: Fingerprint)
      modifies this
      ensures Valid()
      ensures View() == old(View()).(signatures := Without(old(signatures), signer, subject))
      ensures OncePerPair(old(signatures)) ==> OncePerPair(signatures)
      ensures forall fp :: TrustOf(View(), fp) <= TrustOf(old(View()), fp)
    {
      ghost var w := View();
      signatures := Without(signatures, signer, subject);
      InvalidateCache();
      RemovingLowers(w, signer, subject);
      WithoutKeepsOnce(w.signatures, signer, subject);
    }

    method SetManualTrust(fp: Fingerprint, level: Level)
      modifies this
      ensures Valid()
      ensures View() == old(View()).(overrides := old(overrides)[fp := level])
    {
      overrides := overrides[fp := level];
      InvalidateCache();
    }

    /** Whatever was called before, the answer is the least fixpoint of the current graph. */
    method CalculateTrust(fp: Fingerprint) returns (level: Level)
      requires Valid()
      modifies this`cache, this`cacheValid
      ensures Valid() && View() == old(View())
      ensures level == TrustOf(View(), fp)
    {
      Precedence(View(), fp);
      if fp in overrides {
        return overrides[fp];
      }
      if fp in own {
        return Ultimate;
      }
      if !cacheValid {
        var passes;
        cache, passes := ComputeTrustMap(View());
        cacheValid := true;
      }
      level := LevelOf(cache, fp);
    }
  }

  // ---- Adding and removing signatures ----

  ghost predicate Accepts(w: Web, sig: Signature) {
    && sig.signer in w.keys && sig.subject in w.keys && SignatureIsValid(w, sig)
    && forall s :: s in w.signatures ==> s.signer != sig.signer || s.subject != sig.subject
  }

  function Without(sigs: seq<Signature>, signer: Fingerprint, subject: Fingerprint): seq<Signature> {
    if sigs == [] then []
    else
      var k := |sigs| - 1;
      Without(sigs[..k], signer, subject) + if sigs[k].signer == signer && sigs[k].subject == subject then [] else [sigs[k]]
  }

  /** Exactly the signatures of other pairs stay. */
  lemma {:induction false} WithoutPair(sigs: seq<Signature>, signer: Fingerprint, subject: Fingerprint, sig: Signature)
    ensures sig in Without(sigs, signer, subject) <==> sig in sigs && !(sig.signer == signer && sig.subject == subject)
  {
    if sigs != [] {
      var k := |sigs| - 1;
      assert sigs == sigs[..k] + [sigs[k]];
      WithoutPair(sigs[..k], signer, subject, sig);
    }
  }

  /** And they stay in their order. */
  lemma {:induction false} WithoutAppend(a: seq<Signature>, b: seq<Signature>, signer: Fingerprint, subject: Fingerprint)
    ensures Without(a + b, signer, subject) == Without(a, signer, subject) + Without(b, signer, subject)
    ensures |b| == 1 ==> Without(b, signer, subject) == if b[0].signer == signer && b[0].subject == subject then [] else b
    decreases |b|
  {
    if b == [] {
      assert a + b == a;
    } else {
      var k := |b| - 1;
      assert (a + b)[..|a + b| - 1] == a + b[..k] && (a + b)[|a + b| - 1] == b[k];
      WithoutAppend(a, b[..k], signer, subject);
    }
  }

  lemma {:induction false} WithoutKeepsOnce(sigs: seq<Signature>, signer: Fingerprint, subject: Fingerprint)
    ensures OncePerPair(sigs) ==> OncePerPair(Without(sigs, signer, subject))
  {
    if OncePerPair(sigs) && sigs != [] {
      var k := |sigs| - 1;
      WithoutKeepsOnce(sigs[..k], signer, subject);
      var rest := Without(sigs[..k], signer, subject);
      forall i | 0 <= i < |rest| ensures rest[i].signer != sigs[k].signer || rest[i].subject != sigs[k].subject {
        WithoutPair(sigs[..k], signer, subject, rest[i]);
      }
    }
  }

  /** Fewer contributions for every key under every assignment. */
  ghost predicate Weaker(a: seq<Signature>, b: seq<Signature>) {
    forall t, fp, min :: Support(a, t, fp, min) <= Support(b, t, fp, min)
  }

  /** A graph with fewer signatures has a lower least fixpoint. */
  lemma WeakerLowers(g: Graph, g': Graph)
    requires g.Valid() && g'.Valid() && g.base == g'.base && g.nodes == g'.nodes && Weaker(g.sigs, g'.sigs)
    ensures Below(TrustMap(g), TrustMap(g'))
  {
    var t' := TrustMap(g');
    FixpointClosed(g', t');
    forall fp | fp in g.nodes ensures Rated(g.sigs, t', fp) <= LevelOf(t', fp) {
      assert Support(g.sigs, t', fp, Full) <= Support(g'.sigs, t', fp, Full);
      assert Support(g.sigs, t', fp, Marginal) <= Support(g'.sigs, t', fp, Marginal);
    }
    assert Closed(g, t');
  }

  lemma AddingRaises(w: Web, sig: Signature)
    ensures forall fp :: TrustOf(w, fp) <= TrustOf(w.(signatures := w.signatures + [sig]), fp)
  {
    var w' := w.(signatures := w.signatures + [sig]);
    AddingStrengthens(w, w.signatures, sig, w');
    WeakerLowers(GraphOf(w), GraphOf(w'));
  }

  lemma AddingStrengthens(w: Web, sigs: seq<Signature>, sig: Signature, w': Web)
    requires w' == w.(signatures := sigs + [sig])
    ensures Weaker(ValidSignatures(w, sigs), ValidSignatures(w', sigs + [sig]))
  {
    assert (sigs + [sig])[..|sigs|] == sigs;
    SameValidity(w, w', sigs);
    var a, b := ValidSignatures(w, sigs), ValidSignatures(w', sigs + [sig]);
    if SignatureIsValid(w', sig) {
      assert b == a + [sig] && b[..|a|] == a;
    } else {
      assert b == a;
    }
  }

  lemma {:induction false} SameValidity(w: Web, w': Web, sigs: seq<Signature>)
    requires w.keys == w'.keys && w.verify == w'.verify
    ensures ValidSignatures(w, sigs) == ValidSignatures(w', sigs)
  {
    if sigs != [] {
      SameValidity(w, w', sigs[..|sigs| - 1]);
    }
  }

  lemma RemovingLowers(w: Web, signer: Fingerprint, subject: Fingerprint)
    ensures forall fp :: TrustOf(w.(signatures := Without(w.signatures, signer, subject)), fp) <= TrustOf(w, fp)
  {
    var w' := w.(signatures := Without(w.signatures, signer, subject));
    SameValidity(w, w', w'.signatures);
    RemovingWeakens(w, w.signatures, signer, subject);
    WeakerLowers(GraphOf(w'), GraphOf(w));
  }

  lemma ValidSnoc(w: Web, sigs: seq<Signature>, sig: Signature)
    ensures ValidSignatures(w, sigs + [sig]) == ValidSignatures(w, sigs) + if SignatureIsValid(w, sig) then [sig] else []
  {
    assert (sigs + [sig])[..|sigs|] == sigs;
  }

  lemma {:induction false} RemovingWeakens(w: Web, sigs: seq<Signature>, signer: Fingerprint, subject: Fingerprint)
    ensures Weaker(ValidSignatures(w, Without(sigs, signer, subject)), ValidSignatures(w, sigs))
  {
    if sigs != [] {
      var k := |sigs| - 1;
      RemovingWeakens(w, sigs[..k], signer, subject);
      assert sigs == sigs[..k] + [sigs[k]];
      var rest := Without(sigs[..k], signer, subject);
      assert rest + [] == rest;
      RemovingOne(w, rest, sigs[..k], sigs[k]);
    }
  }

  lemma RemovingOne(w: Web, rest: seq<Signature>, sigs: seq<Signature>, sig: Signature)
    requires Weaker(ValidSignatures(w, rest), ValidSignatures(w, sigs))
    ensures Weaker(ValidSignatures(w, rest), ValidSignatures(w, sigs + [sig]))
    ensures Weaker(ValidSignatures(w, rest + [sig]), ValidSignatures(w, sigs + [sig]))
  {
    var a, b := ValidSignatures(w, rest), ValidSignatures(w, sigs);
    ValidSnoc(w, rest, sig);
    ValidSnoc(w, sigs, sig);
    if SignatureIsValid(w, sig) {
      OneMore(a, b, sig);
    } else {
      assert ValidSignatures(w, rest + [sig]) == a && ValidSignatures(w, sigs + [sig]) == b;
    }
  }

  lemma OneMore(a: seq<Signature>, b: seq<Signature>, sig: Signature)
    requires Weaker(a, b)
    ensures Weaker(a, b + [sig]) && Weaker(a + [sig], b + [sig])
  {
    assert (a + [sig])[..|a|] == a && (b + [sig])[..|b|] == b;
  }
}

/** The trust rule over a signature graph, and its least fixpoint. */
module TrustGraph {
  import opened ByteStrings

  type Fingerprint = Bytes

  // The program's ordered enumeration: Never < Unknown < Marginal < Full < Ultimate.
  type Level = x: int | -1 <= x <= 3

  const Unknown: Level := 0
  const Marginal: Level := 1
  const Full: Level := 2
  const Ultimate: Level := 3

  datatype Signature = Signature(signer: Fingerprint, subject: Fingerprint, level: Byte, timestamp: nat, data: Bytes)

  type Trust = map<Fingerprint, Level>

  /** What one computation works on: fixed levels, keys to rate, and the signatures that verify. */
  datatype Graph = Graph(base: Trust, nodes: set<Fingerprint>, sigs: seq<Signature>)
  {
    predicate Valid() { nodes !! base.Keys }
  }

  function LevelOf(t: Trust, fp: Fingerprint): Level {
    if fp in t then t[fp] else Unknown
  }

  /** The level a signature grants; numbers outside the enumeration grant nothing. */
  function Granted(b: Byte): Level {
    if b <= 3 then b else Unknown
  }

  function Contribution(t: Trust, sig: Signature): Level {
    var s, g := LevelOf(t, sig.signer), Granted(sig.level);
    if s < g then s else g
  }

  /** A signature carries a level only if its signer has it and it grants it; levels above Ultimate grant nothing. */
  lemma ContributionMeaning(t: Trust, sig: Signature)
    ensures Contribution(t, sig) >= Marginal <==> LevelOf(t, sig.signer) >= Marginal && 1 <= sig.level <= 3
    ensures Contribution(t, sig) >= Full <==> LevelOf(t, sig.signer) >= Full && 2 <= sig.level <= 3
  {
  }

  /** How many signatures of `fp` contribute at least `min`. */
  function Support(sigs: seq<Signature>, t: Trust, fp: Fingerprint, min: Level): nat {
    if sigs == [] then 0
    else
      var k := |sigs| - 1;
      Support(sigs[..k], t, fp, min) + if sigs[k].subject == fp && Contribution(t, sigs[k]) >= min then 1 else 0
  }

  /** One Full contribution or two that are at least Marginal make Full; a single Marginal one makes Marginal. */
  function Rated(sigs: seq<Signature>, t: Trust, fp: Fingerprint): (r: Level)
    ensures 0 <= r <= 2
  {
    if Support(sigs, t, fp, Full) >= 1 || Support(sigs, t, fp, Marginal) >= 2 then Full
    else if Support(sigs, t, fp, Marginal) >= 1 then Marginal
    else Unknown
  }

  // ---- What the counts mean ----

  predicate Supports(sigs: seq<Signature>, t: Trust, fp: Fingerprint, min: Level, i: int) {
    0 <= i < |sigs| && sigs[i].subject == fp && Contribution(t, sigs[i]) >= min
  }

  lemma {:induction false} SupportOne(sigs: seq<Signature>, t: Trust, fp: Fingerprint, min: Level)
    ensures Support(sigs, t, fp, min) >= 1 <==> exists i :: Supports(sigs, t, fp, min, i)
  {
    if sigs != [] {
      var k := |sigs| - 1;
      SupportOne(sigs[..k], t, fp, min);
      if i :| Supports(sigs[..k], t, fp, min, i) {
        assert Supports(sigs, t, fp, min, i);
      }
      assert Supports(sigs, t, fp, min, k) <==> sigs[k].subject == fp && Contribution(t, sigs[k]) >= min;
      if i :| Supports(sigs, t, fp, min, i) {
        assert i == k || Supports(sigs[..k], t, fp, min, i);
      }
    }
  }

  lemma {:induction false} SupportTwo(sigs: seq<Signature>, t: Trust, fp: Fingerprint, min: Level)
    ensures Support(sigs, t, fp, min) >= 2 <==>
            exists i, j :: i < j && Supports(sigs, t, fp, min, i) && Supports(sigs, t, fp, min, j)
  {
    if sigs != [] {
      var k := |sigs| - 1;
      SupportOne(sigs[..k], t, fp, min);
      SupportTwo(sigs[..k], t, fp, min);
      if i, j :| i < j && Supports(sigs[..k], t, fp, min, i) && Supports(sigs[..k], t, fp, min, j) {
        assert Supports(sigs, t, fp, min, i) && Supports(sigs, t, fp, min, j);
      }
      if i :| Supports(sigs[..k], t, fp, min, i) && Supports(sigs, t, fp, min, k) {
        assert Supports(sigs, t, fp, min, i);
      }
      if i, j :| i < j && Supports(sigs, t, fp, min, i) && Supports(sigs, t, fp, min, j) {
        assert Supports(sigs[..k], t, fp, min, i);
        assert j == k || Supports(sigs[..k], t, fp, min, j);
      }
    }
  }

  /** No signer has signed the same subject twice. */
  predicate OncePerPair(sigs: seq<Signature>) {
    forall i, j :: 0 <= i < j < |sigs| ==> sigs[i].signer != sigs[j].signer || sigs[i].subject != sigs[j].subject
  }

  ghost predicate Vouches(sigs: seq<Signature>, t: Trust, signer: Fingerprint, fp: Fingerprint, min: Level) {
    exists i :: Supports(sigs, t, fp, min, i) && sigs[i].signer == signer
  }

  /** The rule as documented, in terms of signers: one at Full, or two different ones at Marginal. */
  ghost predicate SignersMakeFull(sigs: seq<Signature>, t: Trust, fp: Fingerprint) {
    || (exists s :: Vouches(sigs, t, s, fp, Full))
    || (exists s, s' :: s != s' && Vouches(sigs, t, s, fp, Marginal) && Vouches(sigs, t, s', fp, Marginal))
  }

  ghost function SignerRated(sigs: seq<Signature>, t: Trust, fp: Fingerprint): Level {
    if SignersMakeFull(sigs, t, fp) then Full
    else if exists s :: Vouches(sigs, t, s, fp, Marginal) then Marginal
    else Unknown
  }

  /** Two signatures by the same signer on the same subject, both granting something. */
  predicate RepeatedGrant(sigs: seq<Signature>, i: int, j: int) {
    && 0 <= i < j < |sigs| && sigs[i].signer == sigs[j].signer && sigs[i].subject == sigs[j].subject
    && 1 <= sigs[i].level <= 3 && 1 <= sigs[j].level <= 3
  }

  ghost predicate NoRepeatedGrant(sigs: seq<Signature>) {
    forall i, j :: !RepeatedGrant(sigs, i, j)
  }

  lemma SomeVouches(sigs: seq<Signature>, t: Trust, fp: Fingerprint, min: Level)
    ensures Support(sigs, t, fp, min) >= 1 <==> exists s :: Vouches(sigs, t, s, fp, min)
  {
    SupportOne(sigs, t, fp, min);
    if i :| Supports(sigs, t, fp, min, i) {
      assert Vouches(sigs, t, sigs[i].signer, fp, min);
    }
  }

  lemma TwoVouch(sigs: seq<Signature>, t: Trust, fp: Fingerprint)
    ensures (exists s, s' :: s != s' && Vouches(sigs, t, s, fp, Marginal) && Vouches(sigs, t, s', fp, Marginal)) ==>
            Support(sigs, t, fp, Marginal) >= 2
    ensures NoRepeatedGrant(sigs) && Support(sigs, t, fp, Marginal) >= 2 ==>
            exists s, s' :: s != s' && Vouches(sigs, t, s, fp, Marginal) && Vouches(sigs, t, s', fp, Marginal)
  {
    SupportTwo(sigs, t, fp, Marginal);
    if s, s' :| s != s' && Vouches(sigs, t, s, fp, Marginal) && Vouches(sigs, t, s', fp, Marginal) {
      var i :| Supports(sigs, t, fp, Marginal, i) && sigs[i].signer == s;
      var j :| Supports(sigs, t, fp, Marginal, j) && sigs[j].signer == s';
      assert i < j || j < i;
    }
    if i, j :| NoRepeatedGrant(sigs) && i < j && Supports(sigs, t, fp, Marginal, i) && Supports(sigs, t, fp, Marginal, j) {
      assert !RepeatedGrant(sigs, i, j);
      assert Vouches(sigs, t, sigs[i].signer, fp, Marginal) && Vouches(sigs, t, sigs[j].signer, fp, Marginal);
    }
  }

  /** Counting signatures gives what counting signers gives, unless a pair grants twice. */
  lemma RatedMeaning(sigs: seq<Signature>, t: Trust, fp: Fingerprint)
    requires NoRepeatedGrant(sigs)
    ensures Rated(sigs, t, fp) == SignerRated(sigs, t, fp)
  {
    SomeVouches(sigs, t, fp, Full);
    SomeVouches(sigs, t, fp, Marginal);
    TwoVouch(sigs, t, fp);
  }

  /** With a repeated grant, a signer who is just Marginal makes its subject Full all by itself. */
  lemma RepeatOverrates(sigs: seq<Signature>, i: int, j: int, t: Trust)
    requires RepeatedGrant(sigs, i, j) && t == map[sigs[i].signer := Marginal]
    ensures Rated(sigs, t, sigs[i].subject) == Full && SignerRated(sigs, t, sigs[i].subject) == Marginal
  {
    var fp := sigs[i].subject;
    SupportTwo(sigs, t, fp, Marginal);
    assert Supports(sigs, t, fp, Marginal, i) && Supports(sigs, t, fp, Marginal, j);
    assert Vouches(sigs, t, sigs[i].signer, fp, Marginal);
  }

  /** The code's rule is the documented one, whatever the levels, if and only if no pair grants twice. */
  lemma RuleExact(sigs: seq<Signature>)
    ensures (forall t, fp :: Rated(sigs, t, fp) == SignerRated(sigs, t, fp)) <==> NoRepeatedGrant(sigs)
  {
    if NoRepeatedGrant(sigs) {
      forall t, fp ensures Rated(sigs, t, fp) == SignerRated(sigs, t, fp) {
        RatedMeaning(sigs, t, fp);
      }
    } else {
      var i, j :| RepeatedGrant(sigs, i, j);
      RepeatOverrates(sigs, i, j, map[sigs[i].signer := Marginal]);
    }
  }

  // ---- Monotonicity ----

  ghost predicate Below(t: Trust, t': Trust) {
    forall fp :: LevelOf(t, fp) <= LevelOf(t', fp)
  }

  lemma {:induction false} SupportMonotone(sigs: seq<Signature>, t: Trust, t': Trust, fp: Fingerprint, min: Level)
    requires Below(t, t')
    ensures Support(sigs, t, fp, min) <= Support(sigs, t', fp, min)
  {
    if sigs != [] {
      SupportMonotone(sigs[..|sigs| - 1], t, t', fp, min);
      assert LevelOf(t, sigs[|sigs| - 1].signer) <= LevelOf(t', sigs[|sigs| - 1].signer);
    }
  }

  lemma RatedMonotone(sigs: seq<Signature>, t: Trust, t': Trust, fp: Fingerprint)
    requires Below(t, t')
    ensures Rated(sigs, t, fp) <= Rated(sigs, t', fp)
  {
    SupportMonotone(sigs, t, t', fp, Full);
    SupportMonotone(sigs, t, t', fp, Marginal);
  }

  // ---- Least fixpoint ----

  ghost predicate KeepsBase(g: Graph, t: Trust) {
    forall fp :: fp in g.base ==> LevelOf(t, fp) == g.base[fp]
  }

  /** At least as high as the rule demands everywhere. */
  ghost predicate Closed(g: Graph, t: Trust) {
    && KeepsBase(g, t)
    && (forall fp :: fp in g.nodes ==> Rated(g.sigs, t, fp) <= LevelOf(t, fp))
    && (forall fp :: fp !in g.base ==> LevelOf(t, fp) >= Unknown)
  }

  ghost predicate IsFixpoint(g: Graph, t: Trust) {
    && KeepsBase(g, t)
    && (forall fp :: fp in g.nodes ==> LevelOf(t, fp) == Rated(g.sigs, t, fp))
    && (forall fp :: fp !in g.base && fp !in g.nodes ==> LevelOf(t, fp) == Unknown)
  }

  ghost predicate BelowAllClosed(g: Graph, t: Trust) {
    forall t' :: Closed(g, t') ==> Below(t, t')
  }

  /** Beyond the fixed levels, only keys above Unknown have an entry. */
  ghost predicate Canonical(g: Graph, t: Trust) {
    && g.base.Keys <= t.Keys
    && forall fp :: fp in t && fp !in g.base ==> fp in g.nodes && t[fp] > Unknown
  }

  ghost predicate IsLeast(g: Graph, t: Trust) {
    IsFixpoint(g, t) && BelowAllClosed(g, t) && Canonical(g, t)
  }

  lemma FixpointClosed(g: Graph, t: Trust)
    requires IsFixpoint(g, t)
    ensures Closed(g, t)
  {
  }

  /** There is at most one least fixpoint map, so no iteration order can matter. */
  lemma LeastUnique(g: Graph, t: Trust, t': Trust)
    requires IsLeast(g, t) && IsLeast(g, t')
    ensures t == t'
  {
    assert Below(t, t') && Below(t', t);
    forall fp ensures (fp in t <==> fp in t') && (fp in t ==> t[fp] == t'[fp]) {
      assert LevelOf(t, fp) <= LevelOf(t', fp) && LevelOf(t', fp) <= LevelOf(t, fp);
    }
  }

  // ---- Climbing towards it ----

  /** What the iteration keeps: below every closed map, and never above what the rule gives. */
  ghost predicate Climbing(g: Graph, t: Trust) {
    && KeepsBase(g, t) && Canonical(g, t) && BelowAllClosed(g, t)
    && forall fp :: fp in g.nodes ==> LevelOf(t, fp) <= Rated(g.sigs, t, fp)
  }

  lemma StartClimbing(g: Graph)
    requires g.Valid()
    ensures Climbing(g, g.base)
  {
    forall t' | Closed(g, t') ensures Below(g.base, t') {
      forall fp ensures LevelOf(g.base, fp) <= LevelOf(t', fp) {}
    }
  }

  lemma RaiseAbove(g: Graph, t: Trust, fp: Fingerprint, t': Trust)
    requires g.Valid() && Climbing(g, t) && fp in g.nodes && t' == t[fp := Rated(g.sigs, t, fp)]
    ensures Below(t, t')
  {
    forall x ensures LevelOf(t, x) <= LevelOf(t', x) {}
  }

  lemma RaiseBelowClosed(g: Graph, t: Trust, fp: Fingerprint, t': Trust)
    requires BelowAllClosed(g, t) && fp in g.nodes && t' == t[fp := Rated(g.sigs, t, fp)]
    ensures BelowAllClosed(g, t')
  {
    forall c | Closed(g, c) ensures Below(t', c) {
      RatedMonotone(g.sigs, t, c, fp);
      forall x ensures LevelOf(t', x) <= LevelOf(c, x) {
        assert LevelOf(t, x) <= LevelOf(c, x);
      }
    }
  }

  /** Setting a key to its rated level never lowers it and keeps climbing. */
  lemma Raise(g: Graph, t: Trust, fp: Fingerprint, t': Trust)
    requires g.Valid() && Climbing(g, t) && fp in g.nodes && LevelOf(t, fp) != Rated(g.sigs, t, fp)
    requires t' == t[fp := Rated(g.sigs, t, fp)]
    ensures Climbing(g, t') && Below(t, t') && LevelOf(t, fp) < LevelOf(t', fp)
  {
    assert LevelOf(t, fp) <= Rated(g.sigs, t, fp);
    RaiseAbove(g, t, fp, t');
    RaiseBelowClosed(g, t, fp, t');
    assert fp !in g.base && LevelOf(t, fp) >= Unknown;
    forall x | x in g.nodes ensures LevelOf(t', x) <= Rated(g.sigs, t', x) {
      RatedMonotone(g.sigs, t, t', x);
      assert LevelOf(t, x) <= Rated(g.sigs, t, x);
    }
  }

  lemma StableIsLeast(g: Graph, t: Trust)
    requires Climbing(g, t) && forall fp :: fp in g.nodes ==> LevelOf(t, fp) == Rated(g.sigs, t, fp)
    ensures IsLeast(g, t)
  {
  }

  // ---- The measure ----

  ghost function Height(t: Trust, nodes: set<Fingerprint>): int
    decreases nodes
  {
    if nodes == {} then 0
    else
      var fp :| fp in nodes;
      LevelOf(t, fp) + Height(t, nodes - {fp})
  }

  lemma {:induction false} HeightBound(g: Graph, t: Trust, nodes: set<Fingerprint>)
    requires g.Valid() && Climbing(g, t) && nodes <= g.nodes
    ensures 0 <= Height(t, nodes) <= 2 * |nodes|
    decreases nodes
  {
    if nodes != {} {
      var fp :| fp in nodes && Height(t, nodes) == LevelOf(t, fp) + Height(t, nodes - {fp});
      HeightBound(g, t, nodes - {fp});
      assert LevelOf(t, fp) <= Rated(g.sigs, t, fp);
    }
  }

  lemma {:induction false} HeightGrows(t: Trust, t': Trust, nodes: set<Fingerprint>, x: Fingerprint)
    requires Below(t, t')
    ensures Height(t, nodes) <= Height(t', nodes)
    ensures x in nodes && LevelOf(t, x) < LevelOf(t', x) ==> Height(t, nodes) < Height(t', nodes)
    decreases nodes
  {
    if nodes != {} {
      var fp :| fp in nodes && Height(t, nodes) == LevelOf(t, fp) + Height(t, nodes - {fp});
      HeightPick(t', nodes, fp);
      HeightGrows(t, t', nodes - {fp}, x);
      assert LevelOf(t, fp) <= LevelOf(t', fp);
    }
  }

  lemma {:induction false} HeightPick(t: Trust, nodes: set<Fingerprint>, fp: Fingerprint)
    requires fp in nodes
    ensures Height(t, nodes) == LevelOf(t, fp) + Height(t, nodes - {fp})
    decreases nodes
  {
    var x :| x in nodes && Height(t, nodes) == LevelOf(t, x) + Height(t, nodes - {x});
    if x != fp {
      assert nodes - {x} - {fp} == nodes - {fp} - {x};
      HeightPick(t, nodes - {x}, fp);
      HeightPick(t, nodes - {fp}, x);
    }
  }

  lemma {:induction false} LeastReached(g: Graph, t: Trust) returns (least: Trust)
    requires g.Valid() && Climbing(g, t)
    ensures IsLeast(g, least)
    decreases 2 * |g.nodes| - Height(t, g.nodes)
  {
    if fp :| fp in g.nodes && LevelOf(t, fp) != Rated(g.sigs, t, fp) {
      var t' := t[fp := Rated(g.sigs, t, fp)];
      Raise(g, t, fp, t');
      HeightGrows(t, t', g.nodes, fp);
      HeightBound(g, t', g.nodes);
      least := LeastReached(g, t');
    } else {
      StableIsLeast(g, t);
      least := t;
    }
  }

  lemma LeastExists(g: Graph)
    requires g.Valid()
    ensures exists t :: IsLeast(g, t)
  {
    StartClimbing(g);
    var t := LeastReached(g, g.base);
  }

  /** The trust map of a graph: the least fixpoint of the rule above the fixed levels. */
  ghost function TrustMap(g: Graph): (t: Trust)
    requires g.Valid()
    ensures IsLeast(g, t)
  {
    LeastExists(g);
    var t :| IsLeast(g, t);
    t
  }
}

/** Where trust comes from: signature chains, and the search for the shortest one. */
module TrustChains {
  import opened ByteStrings
  import opened TrustGraph
  import opened WebOfTrust

  // ---- Trust soundness ----

  /** A verified signature from `a` on `b` that grants at least Marginal. */
  ghost predicate Introduces(g: Graph, a: Fingerprint, b: Fingerprint) {
    exists sig :: sig in g.sigs && sig.signer == a && sig.subject == b && 1 <= sig.level <= 3
  }

  /** Starts at a key with a positive fixed level; every later key is rated by the rule. */
  ghost predicate Chain(g: Graph, p: seq<Fingerprint>) {
    && |p| >= 1 && p[0] in g.base && g.base[p[0]] >= Marginal
    && (forall i :: 1 <= i < |p| ==> p[i] in g.nodes)
    && (forall i :: 1 <= i < |p| ==> Introduces(g, p[i - 1], p[i]))
  }

  ghost predicate Chained(g: Graph, fp: Fingerprint) {
    exists p :: Chain(g, p) && p[|p| - 1] == fp
  }

  lemma ExtendChain(g: Graph, a: Fingerprint, b: Fingerprint)
    requires Chained(g, a) && b in g.nodes && Introduces(g, a, b)
    ensures Chained(g, b)
  {
    var p :| Chain(g, p) && p[|p| - 1] == a;
    var q := p + [b];
    forall i | 1 <= i < |q| ensures q[i] in g.nodes && Introduces(g, q[i - 1], q[i]) {
      assert i < |p| ==> Introduces(g, p[i - 1], p[i]);
    }
    assert Chain(g, q);
  }

  lemma SupportIntroduces(g: Graph, t: Trust, fp: Fingerprint) returns (signer: Fingerprint)
    requires Rated(g.sigs, t, fp) >= Marginal
    ensures Introduces(g, signer, fp) && LevelOf(t, signer) >= Marginal
  {
    SupportOne(g.sigs, t, fp, Full);
    SupportOne(g.sigs, t, fp, Marginal);
    SupportTwo(g.sigs, t, fp, Marginal);
    assert exists i :: Supports(g.sigs, t, fp, Marginal, i) by {
      if i :| Supports(g.sigs, t, fp, Full, i) {
        assert Supports(g.sigs, t, fp, Marginal, i);
      }
    }
    var i :| Supports(g.sigs, t, fp, Marginal, i);
    signer := g.sigs[i].signer;
  }

  /** Full for every chained key, nothing for the rest: a closed map. */
  ghost function ChainedMap(g: Graph): Trust {
    (map fp | fp in g.nodes && Chained(g, fp) :: Full) + g.base
  }

  lemma ChainedMapClosed(g: Graph)
    requires g.Valid()
    ensures Closed(g, ChainedMap(g))
  {
    var t := ChainedMap(g);
    forall fp | fp in g.nodes ensures Rated(g.sigs, t, fp) <= LevelOf(t, fp) {
      if Rated(g.sigs, t, fp) >= Marginal {
        var signer := SupportIntroduces(g, t, fp);
        if signer in g.base {
          assert Chain(g, [signer]);
        }
        ExtendChain(g, signer, fp);
      }
    }
  }

  /** Every key on a chain is at least Marginal. */
  lemma {:induction false} ChainTrusted(g: Graph, p: seq<Fingerprint>)
    requires g.Valid() && Chain(g, p)
    ensures LevelOf(TrustMap(g), p[|p| - 1]) >= Marginal
    decreases |p|
  {
    var t, k := TrustMap(g), |p| - 1;
    if k > 0 {
      ChainTrusted(g, p[..k]);
      var sig :| sig in g.sigs && sig.signer == p[k - 1] && sig.subject == p[k] && Granted(sig.level) >= Marginal;
      var i :| 0 <= i < |g.sigs| && g.sigs[i] == sig;
      assert Supports(g.sigs, t, p[k], Marginal, i);
      SupportOne(g.sigs, t, p[k], Marginal);
    }
  }

  /**
   * A key that is neither ours nor overridden is trusted exactly when a chain of valid
   * signatures, each granting at least Marginal, leads to it from one of our own keys or a
   * positively overridden key, passing only through keys that are neither.
   */
  lemma TrustedIffChained(w: Web, fp: Fingerprint)
    requires fp !in w.own && fp !in w.overrides
    ensures TrustOf(w, fp) >= Marginal <==> Chained(GraphOf(w), fp)
  {
    var g := GraphOf(w);
    var t := TrustMap(g);
    ChainedMapClosed(g);
    assert Below(t, ChainedMap(g));
    assert LevelOf(t, fp) <= LevelOf(ChainedMap(g), fp);
    if Chained(g, fp) {
      var p :| Chain(g, p) && p[|p| - 1] == fp;
      ChainTrusted(g, p);
    }
  }

  // ---- Signature paths ----

  predicate Signs(w: Web, a: Fingerprint, b: Fingerprint) {
    a in w.keys && exists i | 0 <= i < |w.signatures| ::
      && w.signatures[i].signer == a && w.signatures[i].subject == b
      && w.verify(w.keys[a].publicKeyHex, SignatureMessage(b, w.signatures[i].level, w.signatures[i].timestamp), w.signatures[i].data)
  }

  /** A path of valid signatures that starts at one of our own keys. */
  ghost predicate Path(w: Web, p: seq<Fingerprint>) {
    && |p| >= 1 && p[0] in w.own
    && forall i :: 1 <= i < |p| ==> Signs(w, p[i - 1], p[i])
  }

  ghost predicate PathTo(w: Web, p: seq<Fingerprint>, fp: Fingerprint) {
    Path(w, p) && p[|p| - 1] == fp
  }

  ghost predicate Shortest(w: Web, p: seq<Fingerprint>, fp: Fingerprint) {
    PathTo(w, p, fp) && forall q :: PathTo(w, q, fp) ==> |p| <= |q|
  }

  datatype PathResult = Own | NoPath | Found(path: seq<Fingerprint>)

  datatype Entry = Entry(node: Fingerprint, path: seq<Fingerprint>)

  ghost predicate Queued(queue: seq<Entry>, a: Fingerprint) {
    exists i :: 0 <= i < |queue| && queue[i].node == a
  }

  /** Every visited key is still queued or has all the keys it signed visited. */
  ghost predicate Explored(w: Web, queue: seq<Entry>, visited: set<Fingerprint>) {
    forall a, b :: a in visited && Signs(w, a, b) ==> Queued(queue, a) || b in visited
  }

  /** All keys within `d` of our own ones have been visited. */
  ghost predicate Within(w: Web, d: nat, visited: set<Fingerprint>) {
    forall q :: Path(w, q) && |q| <= d ==> q[|q| - 1] in visited
  }

  /** The queue holds shortest paths of length d, then of length d + 1. */
  ghost predicate Layered(w: Web, d: nat, queue: seq<Entry>) {
    && (forall i :: 0 <= i < |queue| ==> Shortest(w, queue[i].path, queue[i].node) && d <= |queue[i].path| <= d + 1)
    && (forall i, j :: 0 <= i < j < |queue| ==> |queue[i].path| <= |queue[j].path|)
  }

  /** Everything a visited key signs, other than keys still queued, has been seen. */
  lemma NextLayer(w: Web, d: nat, queue: seq<Entry>, visited: set<Fingerprint>)
    requires Within(w, d, visited) && Explored(w, queue, visited) && w.own <= visited
    requires forall i :: 0 <= i < |queue| ==> Shortest(w, queue[i].path, queue[i].node) && |queue[i].path| == d + 1
    ensures Within(w, d + 1, visited)
  {
    forall q | Path(w, q) && |q| <= d + 1 ensures q[|q| - 1] in visited {
      if |q| > 1 {
        var p := q[..|q| - 1];
        assert PathTo(w, p, q[|q| - 2]);
        assert Signs(w, q[|q| - 2], q[|q| - 1]);
      }
    }
  }

  lemma {:induction false} ClosedIsEverything(w: Web, visited: set<Fingerprint>, q: seq<Fingerprint>)
    requires Explored(w, [], visited) && w.own <= visited && Path(w, q)
    ensures q[|q| - 1] in visited
    decreases |q|
  {
    if |q| > 1 {
      ClosedIsEverything(w, visited, q[..|q| - 1]);
      assert Signs(w, q[|q| - 2], q[|q| - 1]);
    }
  }

  /** A new key reached from a popped entry of length d has distance d + 1. */
  lemma NewIsShortest(w: Web, d: nat, visited: set<Fingerprint>, path: seq<Fingerprint>, a: Fingerprint, b: Fingerprint)
    requires Within(w, d, visited) && PathTo(w, path, a) && |path| == d && Signs(w, a, b) && b !in visited
    ensures Shortest(w, path + [b], b)
  {
    var p := path + [b];
    forall i | 1 <= i < |p| ensures Signs(w, p[i - 1], p[i]) {
      assert i < |path| ==> Signs(w, path[i - 1], path[i]);
    }
  }

  /** Appends every unvisited key that `entry.node` validly signed. */
  method Expand(w: Web, entry: Entry, queue0: seq<Entry>, visited0: set<Fingerprint>)
    returns (queue: seq<Entry>, visited: set<Fingerprint>)
    ensures |queue0| <= |queue| && queue[..|queue0|] == queue0 && visited0 <= visited
    ensures forall b :: Signs(w, entry.node, b) ==> b in visited
    ensures forall i :: |queue0| <= i < |queue| ==>
              queue[i].path == entry.path + [queue[i].node] && Signs(w, entry.node, queue[i].node) && queue[i].node !in visited0
    ensures forall b :: b in visited && b !in visited0 ==> Queued(queue, b)
    ensures |visited| - |visited0| == |queue| - |queue0|
    ensures forall b :: b in visited ==> b in visited0 || exists i :: 0 <= i < |w.signatures| && w.signatures[i].subject == b
  {
    queue, visited := queue0, visited0;
    for k := 0 to |w.signatures|
      invariant |queue0| <= |queue| && queue[..|queue0|] == queue0 && visited0 <= visited
      invariant forall i :: 0 <= i < k && w.signatures[i].signer == entry.node && SignatureIsValid(w, w.signatures[i]) ==>
                  w.signatures[i].subject in visited
      invariant forall i :: |queue0| <= i < |queue| ==>
                  queue[i].path == entry.path + [queue[i].node] && Signs(w, entry.node, queue[i].node) && queue[i].node !in visited0
      invariant forall b :: b in visited && b !in visited0 ==> Queued(queue, b)
      invariant |visited| - |visited0| == |queue| - |queue0|
      invariant forall b :: b in visited ==> b in visited0 || exists i :: 0 <= i < |w.signatures| && w.signatures[i].subject == b
    {
      var sig := w.signatures[k];
      if sig.signer == entry.node && sig.subject !in visited && SignatureIsValid(w, sig) {
        assert Signs(w, entry.node, sig.subject);
        ghost var was := queue;
        visited := visited + {sig.subject};
        queue := queue + [Entry(sig.subject, entry.path + [sig.subject])];
        KeepsQueued(was, queue);
      }
    }
  }

  lemma KeepsQueued(queue: seq<Entry>, queue': seq<Entry>)
    requires |queue'| > |queue| && queue'[..|queue|] == queue
    ensures forall b :: Queued(queue, b) ==> Queued(queue', b)
    ensures Queued(queue', queue'[|queue|].node)
  {
    forall b | Queued(queue, b) ensures Queued(queue', b) {
      var i :| 0 <= i < |queue| && queue[i].node == b;
      assert queue'[i] == queue[i];
    }
  }

  /** Popping an entry of length d and expanding it keeps the search invariant. */
  lemma ExpandKeeps(w: Web, d: nat, queue: seq<Entry>, visited: set<Fingerprint>, queue': seq<Entry>, visited': set<Fingerprint>)
    requires queue != [] && Layered(w, d, queue) && |queue[0].path| == d && Within(w, d, visited) && Explored(w, queue, visited)
    requires visited <= visited' && |queue'| >= |queue| - 1 && queue'[..|queue| - 1] == queue[1..]
    requires forall b :: Signs(w, queue[0].node, b) ==> b in visited'
    requires forall i :: |queue| - 1 <= i < |queue'| ==>
               queue'[i].path == queue[0].path + [queue'[i].node] && Signs(w, queue[0].node, queue'[i].node) && queue'[i].node !in visited
    requires forall b :: b in visited' && b !in visited ==> Queued(queue', b)
    ensures Layered(w, d, queue') && Within(w, d, visited') && Explored(w, queue', visited')
  {
    LayeredStep(w, d, queue, visited, queue');
    forall a, b | a in visited' && Signs(w, a, b) ensures Queued(queue', a) || b in visited' {
      if Queued(queue, a) && a != queue[0].node {
        var i :| 0 <= i < |queue| && queue[i].node == a;
        assert queue[i] == queue[1..][i - 1] == queue'[i - 1];
      }
    }
  }

  lemma LayeredStep(w: Web, d: nat, queue: seq<Entry>, visited: set<Fingerprint>, queue': seq<Entry>)
    requires queue != [] && Layered(w, d, queue) && |queue[0].path| == d && Within(w, d, visited)
    requires |queue'| >= |queue| - 1 && queue'[..|queue| - 1] == queue[1..]
    requires forall i :: |queue| - 1 <= i < |queue'| ==>
               queue'[i].path == queue[0].path + [queue'[i].node] && Signs(w, queue[0].node, queue'[i].node) && queue'[i].node !in visited
    ensures Layered(w, d, queue')
  {
    forall i | 0 <= i < |queue'|
      ensures Shortest(w, queue'[i].path, queue'[i].node) && d <= |queue'[i].path| <= d + 1
      ensures i < |queue| - 1 ==> queue'[i] == queue[i + 1]
      ensures i >= |queue| - 1 ==> |queue'[i].path| == d + 1
    {
      if i < |queue| - 1 {
        assert queue'[i] == queue'[..|queue| - 1][i];
      } else {
        NewIsShortest(w, d, visited, queue[0].path, queue[0].node, queue'[i].node);
      }
    }
  }

  /** The front of the queue decides which layer the search has reached. */
  lemma LayerOf(w: Web, d: nat, queue: seq<Entry>, visited: set<Fingerprint>)
    requires queue != [] && Layered(w, d, queue) && Within(w, d, visited) && Explored(w, queue, visited) && w.own <= visited
    ensures Layered(w, |queue[0].path|, queue) && Within(w, |queue[0].path|, visited)
  {
    if |queue[0].path| == d + 1 {
      NextLayer(w, d, queue, visited);
    }
  }

  /** Our own keys, each as a path of its own, in whatever order they are listed. */
  method Sources(w: Web) returns (queue: seq<Entry>)
    ensures |queue| == |w.own|
    ensures Layered(w, 1, queue) && Within(w, 1, w.own) && Explored(w, queue, w.own)
    ensures forall i :: 0 <= i < |queue| ==> queue[i].node in w.own
  {
    queue := [];
    var left := w.own;
    while left != {}
      invariant left <= w.own && |queue| + |left| == |w.own|
      invariant forall i :: 0 <= i < |queue| ==> queue[i].node in w.own && queue[i].path == [queue[i].node]
      invariant forall a :: a in w.own && a !in left ==> Queued(queue, a)
      decreases |left|
    {
      var fp :| fp in left;
      left := left - {fp};
      ghost var was := queue;
      queue := queue + [Entry(fp, [fp])];
      KeepsQueued(was, queue);
    }
  }

  /** All keys the search can ever visit. */
  ghost function Universe(w: Web): set<Fingerprint> {
    w.own + set i | 0 <= i < |w.signatures| :: w.signatures[i].subject
  }

  /** Breadth-first search over verified signatures, before the display shortens fingerprints. */
  method TrustPath(w: Web, fp: Fingerprint) returns (r: PathResult)
    ensures r.Own? <==> fp in w.own
    ensures r.Found? ==> Shortest(w, r.path, fp)
    ensures r.NoPath? <==> !exists p :: PathTo(w, p, fp)
  {
    if fp in w.own {
      assert PathTo(w, [fp], fp);
      return Own;
    }
    var queue := Sources(w);
    var visited := w.own;
    ghost var d: nat := 1;
    while queue != []
      invariant w.own <= visited <= Universe(w) && (fp in visited ==> Queued(queue, fp))
      invariant Layered(w, d, queue) && Within(w, d, visited) && Explored(w, queue, visited)
      decreases |Universe(w)| - |visited| + |queue|
    {
      var entry := queue[0];
      LayerOf(w, d, queue, visited);
      d := |entry.path|;
      if entry.node == fp {
        return Found(entry.path);
      }
      ghost var queue0, visited0 := queue, visited;
      queue, visited := Expand(w, entry, queue[1..], visited);
      ExpandKeeps(w, d, queue0, visited0, queue, visited);
      StillQueued(queue0, queue, fp);
      SubsetSize(visited, Universe(w));
    }
    forall p | Path(w, p) ensures p[|p| - 1] != fp {
      ClosedIsEverything(w, visited, p);
    }
    r := NoPath;
  }

  lemma StillQueued(queue: seq<Entry>, queue': seq<Entry>, a: Fingerprint)
    requires queue != [] && |queue'| >= |queue| - 1 && queue'[..|queue| - 1] == queue[1..]
    ensures Queued(queue, a) && a != queue[0].node ==> Queued(queue', a)
  {
    if Queued(queue, a) && a != queue[0].node {
      var i :| 0 <= i < |queue| && queue[i].node == a;
      assert queue[i] == queue[1..][i - 1] == queue'[i - 1];
    }
  }

  /** With no override above Unknown, every trusted key has a signature path from one of our own keys. */
  lemma TrustedHasPath(w: Web, fp: Fingerprint)
    requires forall x :: x in w.overrides ==> w.overrides[x] <= Unknown
    requires TrustOf(w, fp) >= Marginal && fp !in w.own
    ensures exists p :: PathTo(w, p, fp)
  {
    Precedence(w, fp);
    var g := GraphOf(w);
    TrustedIffChained(w, fp);
    var p :| Chain(g, p) && p[|p| - 1] == fp;
    forall i | 1 <= i < |p| ensures Signs(w, p[i - 1], p[i]) {
      assert Introduces(g, p[i - 1], p[i]);
      IntroducerSigns(w, p[i - 1], p[i]);
    }
    assert PathTo(w, p, fp);
  }

  lemma IntroducerSigns(w: Web, a: Fingerprint, b: Fingerprint)
    requires Introduces(GraphOf(w), a, b)
    ensures Signs(w, a, b)
  {
    var sig :| sig in GraphOf(w).sigs && sig.signer == a && sig.subject == b && Granted(sig.level) >= Marginal;
    ValidOnes(w, w.signatures, sig);
    var i :| 0 <= i < |w.signatures| && w.signatures[i] == sig;
  }
}

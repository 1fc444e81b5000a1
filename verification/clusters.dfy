/**
 * Greedy clustering of a batch of raw records (`_build_clusters`,
 * internal/domain/pipeline/engine.py). Records are named by their position in
 * the batch; each cluster is seeded by the first record not yet taken, and a
 * later record joins only by matching that seed.
 */
module Clusters {
  import opened Records
  import opened Matcher
  import opened Models

  /** A cluster: member positions (the seed first), its match level and its confidence. */
  datatype Cluster = Cluster(members: seq<nat>, level: Level, confidence: real)

  /**
   * How the record at one position of the batch matches the record at another;
   * the clustering below depends on the records only through this function.
   */
  type Pairing = (nat, nat) -> (Level, real)

  /** `match_confidence` on the records at two positions of `raw`. */
  function PairMatch(raw: seq<RawProspect>, ratio: (string, string) -> Ratio): Pairing
  {
    (a: nat, b: nat) => if a < |raw| && b < |raw| then MatchConfidence(raw[a], raw[b], ratio) else (NoMatch, 0.0)
  }

  /** The level at which record `x` matches seed `s`. */
  function LevelWith(m: Pairing, s: nat, x: nat): Level {
    m(s, x).0
  }

  /** The confidence with which record `x` matches seed `s`. */
  function ConfidenceWith(m: Pairing, s: nat, x: nat): real {
    m(s, x).1
  }

  /** One pass of the inner loop: candidate `j` against seed `s`. */
  function Consider(n: nat, m: Pairing, s: nat, j: nat, c: Cluster, taken: set<nat>)
    : (Cluster, set<nat>)
    requires s < n && j < n
  {
    if j in taken then (c, taken)
    else
      var r := m(s, j);
      if r.0 == High then (Cluster(c.members + [j], High, Max(c.confidence, r.1)), taken + {j})
      else if r.0 == Medium && c.level != High then (Cluster(c.members + [j], Medium, Max(c.confidence, r.1)), taken + {j})
      else (c, taken)
  }

  /** The inner loop from candidate `j` to the end of the batch. */
  function Scan(n: nat, m: Pairing, s: nat, j: nat, c: Cluster, taken: set<nat>)
    : (Cluster, set<nat>)
    requires s < n && j <= n
    decreases n - j
  {
    if j == n then (c, taken)
    else
      var next := Consider(n, m, s, j, c, taken);
      Scan(n, m, s, j + 1, next.0, next.1)
  }

  /** The outer loop from position `i` on, with the positions in `taken` already processed. */
  function ClustersFrom(n: nat, m: Pairing, i: nat, taken: set<nat>): seq<Cluster>
    requires i <= n
    decreases n - i
  {
    if i == n then []
    else if i in taken then ClustersFrom(n, m, i + 1, taken)
    else
      var r := Scan(n, m, i, i + 1, Cluster([i], NoMatch, 0.0), taken + {i});
      [r.0] + ClustersFrom(n, m, i + 1, r.1)
  }

  /** The clusters `_build_clusters` returns. */
  function GreedyClusters(n: nat, m: Pairing): seq<Cluster>
  {
    ClustersFrom(n, m, 0, {})
  }

  /**
   * The inner loop of `_build_clusters`: grow the cluster seeded by record `i`
   * of a batch of `n`, given the positions already `processed` (which include
   * `i`), asking the pairing `m` for each candidate.
   */
  method GrowCluster(n: nat, m: Pairing, i: nat, processed: set<nat>) returns (c: Cluster, taken: set<nat>)
    requires i < n
    ensures (c, taken) == Scan(n, m, i, i + 1, Cluster([i], NoMatch, 0.0), processed)
  {
    var members: seq<nat> := [i];
    var level := NoMatch;
    var confidence := 0.0;
    taken := processed;
    var j: nat := i + 1;
    while j < n
      invariant i < j <= n
      invariant Scan(n, m, i, j, Cluster(members, level, confidence), taken)
             == Scan(n, m, i, i + 1, Cluster([i], NoMatch, 0.0), processed)
    {
      if j !in taken {
        var r := m(i, j);
        if r.0 == High {
          members := members + [j];
          level := High;
          confidence := Max(confidence, r.1);
          taken := taken + {j};
        } else if r.0 == Medium && level != High {
          members := members + [j];
          level := Medium;
          confidence := Max(confidence, r.1);
          taken := taken + {j};
        }
      }
      j := j + 1;
    }
    c := Cluster(members, level, confidence);
  }

  lemma {:induction false} ClustersFromSeed(n: nat, m: Pairing, i: nat, before: set<nat>, c: Cluster, after: set<nat>)
    requires i < n && i !in before
    requires (c, after) == Scan(n, m, i, i + 1, Cluster([i], NoMatch, 0.0), before + {i})
    ensures ClustersFrom(n, m, i, before) == [c] + ClustersFrom(n, m, i + 1, after)
  {
  }

  /** The outer loop of `_build_clusters` over a batch of `n` records under the pairing `m`. */
  method BuildClustersWith(n: nat, m: Pairing) returns (clusters: seq<Cluster>)
    ensures clusters == GreedyClusters(n, m)
  {
    clusters := [];
    var processed: set<nat> := {};
    var i: nat := 0;
    while i < n
      invariant 0 <= i <= n
      invariant clusters + ClustersFrom(n, m, i, processed) == GreedyClusters(n, m)
    {
      ghost var before := processed;
      if i !in processed {
        var c;
        c, processed := GrowCluster(n, m, i, processed + {i});
        ClustersFromSeed(n, m, i, before, c, processed);
        assert clusters + [c] + ClustersFrom(n, m, i + 1, processed) == clusters + ClustersFrom(n, m, i, before);
        clusters := clusters + [c];
      }
      i := i + 1;
    }
  }

  /** `_build_clusters`: the greedy clusters of the batch under `match_confidence`. */
  method BuildClusters(raw: seq<RawProspect>, ratio: (string, string) -> Ratio) returns (clusters: seq<Cluster>)
    ensures clusters == GreedyClusters(|raw|, PairMatch(raw, ratio))
  {
    clusters := BuildClustersWith(|raw|, PairMatch(raw, ratio));
  }

  // ---------------------------------------------------------------------------
  // What a cluster is

  /** The largest confidence among the matches of the members `ms` with seed `s`; 0.0 for none. */
  function MaxConfidence(m: Pairing, s: nat, ms: seq<nat>): real
    decreases |ms|
  {
    if ms == [] then 0.0
    else Max(MaxConfidence(m, s, ms[..|ms| - 1]), ConfidenceWith(m, s, ms[|ms| - 1]))
  }

  /** The positions listed in `ms`. */
  function MemberSet(ms: seq<nat>): set<nat> {
    set x | x in ms
  }

  predicate Increasing(ms: seq<nat>) {
    forall a, b :: 0 <= a < b < |ms| ==> ms[a] < ms[b]
  }

  /** The seed comes first, the members are in batch order, and all are positions of the batch. */
  predicate Shaped(n: nat, c: Cluster) {
    && c.members != []
    && Increasing(c.members)
    && (forall k :: 0 <= k < |c.members| ==> c.members[k] < n)
  }

  /** Some member after the seed matched it at `high`, among those before position `x`. */
  predicate HighBefore(n: nat, m: Pairing, c: Cluster, x: nat)
    requires Shaped(n, c)
  {
    exists k :: 1 <= k < |c.members| && c.members[k] < x && LevelWith(m, c.members[0], c.members[k]) == High
  }

  /**
   * The rules a cluster obeys. A member joined by matching the seed at `high`,
   * or at `medium` while no earlier member had matched at `high`; a candidate
   * below `j` that was available (not in `before`) and is not a member matched
   * below `high`, and if at `medium` then after a `high` member. The level is `none` exactly
   * for a lone seed and `high` exactly when some member matched at `high`; the
   * confidence is the largest accepted match confidence.
   */
  predicate Rules(n: nat, m: Pairing, c: Cluster, before: set<nat>, j: nat)
    requires Shaped(n, c)
  {
    var s := c.members[0];
    && (forall k :: 1 <= k < |c.members| ==>
          var l := LevelWith(m, s, c.members[k]);
          l == High || (l == Medium && !HighBefore(n, m, c, c.members[k])))
    && (forall x :: s < x < j && x < n && x !in before && x !in c.members ==>
          var l := LevelWith(m, s, x);
          l != High && (l == Medium ==> HighBefore(n, m, c, x)))
    && (c.level == NoMatch <==> |c.members| == 1)
    && c.level != Low
    && (c.level == High <==> HighBefore(n, m, c, n))
    && c.confidence == MaxConfidence(m, s, c.members[1..])
  }

  /** The state of the inner loop before candidate `j`: members are taken, candidates below `j` decided. */
  predicate ScanState(n: nat, m: Pairing, s: nat, j: nat, c: Cluster,
                      taken: set<nat>, before: set<nat>)
  {
    && s < j <= n
    && Shaped(n, c) && c.members[0] == s
    && (forall k :: 0 <= k < |c.members| ==> c.members[k] < j)
    && taken == before + MemberSet(c.members)
    && (forall k :: 0 <= k < |c.members| ==> c.members[k] !in before)
    && Rules(n, m, c, before, j)
  }

  lemma {:induction false} HighBeforeExtend(n: nat, m: Pairing, c: Cluster, x: nat, y: nat)
    requires Shaped(n, c) && x <= y
    requires HighBefore(n, m, c, x)
    ensures HighBefore(n, m, c, y)
  {
  }

  /** Appending a member beyond every position that matters keeps earlier `HighBefore` answers. */
  lemma {:induction false} HighBeforeAppend(n: nat, m: Pairing, c: Cluster, j: nat, level: Level, conf: real, x: nat)
    requires Shaped(n, c) && j < n && x <= j
    requires forall k :: 0 <= k < |c.members| ==> c.members[k] < j
    ensures Shaped(n, Cluster(c.members + [j], level, conf))
    ensures HighBefore(n, m, Cluster(c.members + [j], level, conf), x) <==> HighBefore(n, m, c, x)
  {
    var d := Cluster(c.members + [j], level, conf);
    if HighBefore(n, m, d, x) {
      var k :| 1 <= k < |d.members| && d.members[k] < x && LevelWith(m, d.members[0], d.members[k]) == High;
      assert k < |c.members|;
    }
    if HighBefore(n, m, c, x) {
      var k :| 1 <= k < |c.members| && c.members[k] < x && LevelWith(m, c.members[0], c.members[k]) == High;
      assert d.members[k] == c.members[k];
    }
  }

  lemma {:induction false} MaxConfidenceAppend(m: Pairing, s: nat, ms: seq<nat>, j: nat)
    requires ms != []
    ensures MaxConfidence(m, s, (ms + [j])[1..])
         == Max(MaxConfidence(m, s, ms[1..]), ConfidenceWith(m, s, j))
  {
    assert (ms + [j])[1..] == ms[1..] + [j];
    assert (ms[1..] + [j])[..|ms[1..]|] == ms[1..];
  }

  lemma {:induction false} MemberSetAppend(ms: seq<nat>, j: nat)
    ensures MemberSet(ms + [j]) == MemberSet(ms) + {j}
  {
    forall y | y in MemberSet(ms) + {j} ensures y in MemberSet(ms + [j]) {
      if y == j {
        assert (ms + [j])[|ms|] == j;
      } else {
        var k :| 0 <= k < |ms| && ms[k] == y;
        assert (ms + [j])[k] == y;
      }
    }
  }

  /** What a new last member changes in `HighBefore`: nothing below it, and at the end only its own level. */
  lemma {:induction false} HighBeforeAppendAll(n: nat, m: Pairing, c: Cluster, j: nat, level: Level, conf: real)
    requires Shaped(n, c) && j < n
    requires forall k :: 0 <= k < |c.members| ==> c.members[k] < j
    ensures Shaped(n, Cluster(c.members + [j], level, conf))
    ensures forall x: nat :: x <= j ==>
              (HighBefore(n, m, Cluster(c.members + [j], level, conf), x) <==> HighBefore(n, m, c, x))
    ensures HighBefore(n, m, Cluster(c.members + [j], level, conf), n)
        <==> HighBefore(n, m, c, n) || LevelWith(m, c.members[0], j) == High
  {
    var d := Cluster(c.members + [j], level, conf);
    var s := c.members[0];
    forall x: nat | x <= j ensures HighBefore(n, m, d, x) <==> HighBefore(n, m, c, x) {
      HighBeforeAppend(n, m, c, j, level, conf, x);
    }
    if LevelWith(m, s, j) == High {
      assert d.members[|c.members|] == j;
    }
    if HighBefore(n, m, d, n) {
      var k :| 1 <= k < |d.members| && d.members[k] < n && LevelWith(m, s, d.members[k]) == High;
      if k < |c.members| {
        assert c.members[k] == d.members[k];
      }
    }
    if HighBefore(n, m, c, n) {
      var k :| 1 <= k < |c.members| && c.members[k] < n && LevelWith(m, s, c.members[k]) == High;
      assert d.members[k] == c.members[k];
    }
  }

  /** Accepting candidate `j` into the cluster. */
  lemma {:induction false} AcceptKeepsState(n: nat, m: Pairing, s: nat, j: nat, c: Cluster,
                         taken: set<nat>, before: set<nat>, level: Level)
    requires ScanState(n, m, s, j, c, taken, before) && j < n && j !in taken
    requires var l := LevelWith(m, s, j);
             l == High || (l == Medium && c.level != High)
    requires level == (if LevelWith(m, s, j) == High then High else Medium)
    ensures var d := Cluster(c.members + [j], level, Max(c.confidence, ConfidenceWith(m, s, j)));
            ScanState(n, m, s, j + 1, d, taken + {j}, before)
  {
    var conf := Max(c.confidence, ConfidenceWith(m, s, j));
    var d := Cluster(c.members + [j], level, conf);
    HighBeforeAppendAll(n, m, c, j, level, conf);
    MemberSetAppend(c.members, j);
    MaxConfidenceAppend(m, s, c.members, j);
    assert c.level != High ==> !HighBefore(n, m, c, j) by {
      if HighBefore(n, m, c, j) { HighBeforeExtend(n, m, c, j, n); }
    }
    forall k | 1 <= k < |d.members|
      ensures var l := LevelWith(m, s, d.members[k]);
              l == High || (l == Medium && !HighBefore(n, m, d, d.members[k]))
    {
      if k < |c.members| {
        assert d.members[k] == c.members[k];
      }
    }
    forall x | s < x < j + 1 && x < n && x !in before && x !in d.members
      ensures var l := LevelWith(m, s, x);
              l != High && (l == Medium ==> HighBefore(n, m, d, x))
    {
      assert x != j;
      assert x !in c.members;
    }
  }

  /** Rejecting candidate `j`, or skipping it because it is taken. */
  lemma {:induction false} RejectKeepsState(n: nat, m: Pairing, s: nat, j: nat, c: Cluster,
                         taken: set<nat>, before: set<nat>)
    requires ScanState(n, m, s, j, c, taken, before) && j < n
    requires j !in taken ==>
      var l := LevelWith(m, s, j);
      l != High && (l == Medium ==> c.level == High)
    ensures ScanState(n, m, s, j + 1, c, taken, before)
  {
    if j !in taken && LevelWith(m, s, j) == Medium {
      assert HighBefore(n, m, c, n);
      var k :| 1 <= k < |c.members| && c.members[k] < n && LevelWith(m, s, c.members[k]) == High;
      assert c.members[k] < j;
    }
    forall x | s < x < j + 1 && x < n && x !in before && x !in c.members
      ensures var l := LevelWith(m, s, x);
              l != High && (l == Medium ==> HighBefore(n, m, c, x))
    {
      if x == j {
        assert j !in taken;
      }
    }
  }

  lemma {:induction false} ConsiderKeepsState(n: nat, m: Pairing, s: nat, j: nat, c: Cluster,
                           taken: set<nat>, before: set<nat>)
    requires ScanState(n, m, s, j, c, taken, before) && j < n
    ensures var r := Consider(n, m, s, j, c, taken);
            ScanState(n, m, s, j + 1, r.0, r.1, before)
  {
    if j in taken {
      RejectKeepsState(n, m, s, j, c, taken, before);
    } else {
      var l := LevelWith(m, s, j);
      if l == High {
        AcceptKeepsState(n, m, s, j, c, taken, before, High);
      } else if l == Medium && c.level != High {
        AcceptKeepsState(n, m, s, j, c, taken, before, Medium);
      } else {
        RejectKeepsState(n, m, s, j, c, taken, before);
      }
    }
  }

  /** The inner loop ends in a state where every candidate of the batch has been decided. */
  lemma {:induction false} ScanKeepsState(n: nat, m: Pairing, s: nat, j: nat,
                                          c: Cluster, taken: set<nat>, before: set<nat>)
    requires ScanState(n, m, s, j, c, taken, before)
    ensures var r := Scan(n, m, s, j, c, taken);
            ScanState(n, m, s, n, r.0, r.1, before)
    decreases n - j
  {
    if j < n {
      ConsiderKeepsState(n, m, s, j, c, taken, before);
      var next := Consider(n, m, s, j, c, taken);
      ScanKeepsState(n, m, s, j + 1, next.0, next.1, before);
      var r := Scan(n, m, s, j + 1, next.0, next.1);
      assert Scan(n, m, s, j, c, taken) == r;
      assert ScanState(n, m, s, n, r.0, r.1, before);
    } else {
      assert Scan(n, m, s, j, c, taken) == (c, taken);
      assert ScanState(n, m, s, n, c, taken, before);
    }
  }

  /** The cluster seeded at `s` when the positions `before` are already taken. */
  lemma {:induction false} SeedCluster(n: nat, m: Pairing, s: nat, before: set<nat>)
    requires s < n && s !in before
    ensures var r := Scan(n, m, s, s + 1, Cluster([s], NoMatch, 0.0), before + {s});
            && Shaped(n, r.0) && r.0.members[0] == s
            && r.1 == before + MemberSet(r.0.members)
            && (forall k :: 0 <= k < |r.0.members| ==> r.0.members[k] !in before)
            && Rules(n, m, r.0, before, n)
  {
    var c := Cluster([s], NoMatch, 0.0);
    assert (MemberSet(c.members)) == {s};
    assert !HighBefore(n, m, c, n);
    assert ScanState(n, m, s, s + 1, c, before + {s}, before);
    ScanKeepsState(n, m, s, s + 1, c, before + {s}, before);
  }

  // ---------------------------------------------------------------------------
  // The clusters of a batch

  /** The positions that belong to some cluster of `cs`. */
  function Covered(cs: seq<Cluster>): set<nat>
    decreases |cs|
  {
    if cs == [] then {} else MemberSet(cs[0].members) + Covered(cs[1..])
  }

  lemma {:induction false} CoveredIff(cs: seq<Cluster>, x: nat)
    ensures x in Covered(cs) <==> exists a :: 0 <= a < |cs| && x in cs[a].members
    decreases |cs|
  {
    if cs != [] {
      CoveredIff(cs[1..], x);
      if x in Covered(cs[1..]) {
        var a :| 0 <= a < |cs[1..]| && x in cs[1..][a].members;
        assert cs[a + 1] == cs[1..][a];
      }
      if exists a :: 0 <= a < |cs| && x in cs[a].members {
        var a :| 0 <= a < |cs| && x in cs[a].members;
        if a > 0 {
          assert cs[1..][a - 1] == cs[a];
        }
      }
    }
  }

  /** Covering a prefix one cluster longer. */
  lemma {:induction false} CoveredPrefix(c: Cluster, rest: seq<Cluster>, a: nat)
    requires 1 <= a <= |rest| + 1
    ensures Covered(([c] + rest)[..a]) == MemberSet(c.members) + Covered(rest[..a - 1])
  {
    assert ([c] + rest)[..a][0] == c;
    assert ([c] + rest)[..a][1..] == rest[..a - 1];
  }

  /** What the inner loop started at an available seed `i` returns. */
  lemma {:induction false} FirstCluster(n: nat, m: Pairing, i: nat, taken: set<nat>)
    requires i < n && i !in taken
    ensures var r := Scan(n, m, i, i + 1, Cluster([i], NoMatch, 0.0), taken + {i});
            && Shaped(n, r.0) && r.0.members[0] == i
            && (forall x :: x in r.0.members ==> i <= x < n && x !in taken)
            && r.1 == taken + MemberSet(r.0.members)
            && Rules(n, m, r.0, taken, n)
  {
    SeedCluster(n, m, i, taken);
    var r := Scan(n, m, i, i + 1, Cluster([i], NoMatch, 0.0), taken + {i});
    forall x | x in r.0.members ensures i <= x < n && x !in taken {
      var k :| 0 <= k < |r.0.members| && r.0.members[k] == x;
      if k > 0 {
        assert r.0.members[0] < r.0.members[k];
      }
    }
  }

  /** The clusters from position `i` on cover exactly the positions from `i` on not yet taken. */
  lemma {:induction false} ClustersFromCover(n: nat, m: Pairing, i: nat, taken: set<nat>)
    requires i <= n
    ensures forall x :: x in Covered(ClustersFrom(n, m, i, taken)) <==> i <= x < n && x !in taken
    decreases n - i
  {
    if i < n {
      if i in taken {
        ClustersFromCover(n, m, i + 1, taken);
      } else {
        var r := Scan(n, m, i, i + 1, Cluster([i], NoMatch, 0.0), taken + {i});
        FirstCluster(n, m, i, taken);
        ClustersFromCover(n, m, i + 1, r.1);
        var cs := ClustersFrom(n, m, i, taken);
        assert cs[0] == r.0 && cs[1..] == ClustersFrom(n, m, i + 1, r.1);
        assert i in r.0.members;
      }
    }
  }

  /** Every cluster is shaped and seeded at or after `i`, and the seeds increase. */
  predicate SeededFrom(n: nat, cs: seq<Cluster>, i: nat) {
    && (forall a :: 0 <= a < |cs| ==> Shaped(n, cs[a]) && i <= cs[a].members[0])
    && (forall a, b :: 0 <= a < b < |cs| && cs[a].members != [] && cs[b].members != [] ==>
          cs[a].members[0] < cs[b].members[0])
  }

  lemma {:induction false} ClustersFromShaped(n: nat, m: Pairing, i: nat, taken: set<nat>)
    requires i <= n
    ensures SeededFrom(n, ClustersFrom(n, m, i, taken), i)
    decreases n - i
  {
    if i < n {
      if i in taken {
        ClustersFromShaped(n, m, i + 1, taken);
      } else {
        var r := Scan(n, m, i, i + 1, Cluster([i], NoMatch, 0.0), taken + {i});
        FirstCluster(n, m, i, taken);
        ClustersFromShaped(n, m, i + 1, r.1);
        var cs := ClustersFrom(n, m, i, taken);
        var rest := ClustersFrom(n, m, i + 1, r.1);
        assert cs == [r.0] + rest;
        forall a | 0 <= a < |cs| ensures Shaped(n, cs[a]) && i <= cs[a].members[0] {
          if a > 0 {
            assert cs[a] == rest[a - 1];
          }
        }
        forall a, b | 0 <= a < b < |cs| && cs[a].members != [] && cs[b].members != []
          ensures cs[a].members[0] < cs[b].members[0]
        {
          assert cs[b] == rest[b - 1];
          if a > 0 {
            assert cs[a] == rest[a - 1];
          }
        }
      }
    }
  }

  /** No position belongs to two clusters. */
  predicate Disjoint(cs: seq<Cluster>) {
    forall a, b, x :: 0 <= a < b < |cs| && x in cs[a].members ==> x !in cs[b].members
  }

  lemma {:induction false} ClustersFromDisjoint(n: nat, m: Pairing, i: nat, taken: set<nat>)
    requires i <= n
    ensures Disjoint(ClustersFrom(n, m, i, taken))
    decreases n - i
  {
    if i < n {
      if i in taken {
        ClustersFromDisjoint(n, m, i + 1, taken);
      } else {
        var r := Scan(n, m, i, i + 1, Cluster([i], NoMatch, 0.0), taken + {i});
        FirstCluster(n, m, i, taken);
        ClustersFromDisjoint(n, m, i + 1, r.1);
        ClustersFromCover(n, m, i + 1, r.1);
        var cs := ClustersFrom(n, m, i, taken);
        var rest := ClustersFrom(n, m, i + 1, r.1);
        assert cs == [r.0] + rest;
        forall a, b, x | 0 <= a < b < |cs| && x in cs[a].members ensures x !in cs[b].members {
          assert cs[b] == rest[b - 1];
          if a == 0 {
            assert x in r.1;
            CoveredIff(rest, x);
          } else {
            assert cs[a] == rest[a - 1];
          }
        }
      }
    }
  }

  /**
   * Each cluster obeys the joining rules, where the positions unavailable to
   * it are those taken at the start and those of the clusters before it; and
   * its seed is the first position available at that point.
   */
  /** Cluster `a` of `cs` is shaped, obeys the joining rules, and is seeded at the first available position. */
  predicate GreedyAt(n: nat, m: Pairing, cs: seq<Cluster>, taken: set<nat>, i: nat, a: nat)
    requires a < |cs|
  {
    && Shaped(n, cs[a])
    && Rules(n, m, cs[a], taken + Covered(cs[..a]), n)
    && cs[a].members[0] !in taken + Covered(cs[..a])
    && (forall x :: i <= x < cs[a].members[0] ==> x in taken + Covered(cs[..a]))
  }

  predicate Greedy(n: nat, m: Pairing, cs: seq<Cluster>, taken: set<nat>, i: nat) {
    forall a :: 0 <= a < |cs| ==> GreedyAt(n, m, cs, taken, i, a)
  }

  /** A later cluster keeps its rules once the first cluster is put in front of it. */
  lemma {:induction false} GreedyAtCons(n: nat, m: Pairing, c: Cluster, rest: seq<Cluster>, taken: set<nat>, i: nat, a: nat)
    requires 1 <= a <= |rest|
    requires i in c.members
    requires GreedyAt(n, m, rest, taken + MemberSet(c.members), i + 1, a - 1)
    ensures GreedyAt(n, m, [c] + rest, taken, i, a)
  {
    var cs := [c] + rest;
    assert cs[a] == rest[a - 1];
    CoveredPrefix(c, rest, a);
    assert taken + Covered(cs[..a]) == taken + MemberSet(c.members) + Covered(rest[..a - 1]);
  }

  lemma {:induction false} ClustersFromRules(n: nat, m: Pairing, i: nat, taken: set<nat>)
    requires i <= n
    ensures Greedy(n, m, ClustersFrom(n, m, i, taken), taken, i)
    decreases n - i
  {
    if i < n {
      if i in taken {
        ClustersFromRules(n, m, i + 1, taken);
        var cs := ClustersFrom(n, m, i, taken);
        forall a | 0 <= a < |cs| ensures GreedyAt(n, m, cs, taken, i, a) {
          assert GreedyAt(n, m, cs, taken, i + 1, a);
        }
      } else {
        var r := Scan(n, m, i, i + 1, Cluster([i], NoMatch, 0.0), taken + {i});
        FirstCluster(n, m, i, taken);
        ClustersFromRules(n, m, i + 1, r.1);
        var cs := ClustersFrom(n, m, i, taken);
        var rest := ClustersFrom(n, m, i + 1, r.1);
        assert cs == [r.0] + rest;
        forall a | 0 <= a < |cs| ensures GreedyAt(n, m, cs, taken, i, a) {
          if a == 0 {
            assert cs[..a] == [];
            assert taken + Covered(cs[..a]) == taken;
          } else {
            assert GreedyAt(n, m, rest, r.1, i + 1, a - 1);
            GreedyAtCons(n, m, r.0, rest, taken, i, a);
          }
        }
      }
    }
  }

  /**
   * The clusters of a batch of `n` records partition the positions `0..n`:
   * every position is in exactly one cluster, each cluster lists its seed
   * first and its members in batch order, and the seeds increase.
   */
  lemma {:induction false} GreedyClustersPartition(n: nat, m: Pairing)
    ensures var cs := GreedyClusters(n, m);
            && (forall x: nat :: x in Covered(cs) <==> x < n)
            && Disjoint(cs)
            && SeededFrom(n, cs, 0)
  {
    var cs := GreedyClusters(n, m);
    ClustersFromCover(n, m, 0, {});
    ClustersFromDisjoint(n, m, 0, {});
    ClustersFromShaped(n, m, 0, {});
  }

  /**
   * Each cluster obeys the joining rules against the positions of the
   * clusters before it, and its seed is the first position no earlier cluster
   * holds.
   */
  lemma {:induction false} GreedyClustersRules(n: nat, m: Pairing)
    ensures Greedy(n, m, GreedyClusters(n, m), {}, 0)
  {
    ClustersFromRules(n, m, 0, {});
  }

  /** A cluster that obeys the joining rules is a singleton exactly when its level is `none`, and is never `low`. */
  lemma {:induction false} RulesLevel(n: nat, m: Pairing, c: Cluster, before: set<nat>, j: nat)
    requires Shaped(n, c) && Rules(n, m, c, before, j)
    ensures c.level == NoMatch <==> |c.members| == 1
    ensures c.level != Low
  {
  }

  /**
   * Every cluster of a batch is a singleton, or has level `high` or `medium`:
   * the last branch of the routing loop in `process` is never taken.
   */
  lemma {:induction false} GreedyClustersLevels(n: nat, m: Pairing)
    ensures forall a :: 0 <= a < |GreedyClusters(n, m)| ==>
              var c := GreedyClusters(n, m)[a];
              (|c.members| == 1 <==> c.level == NoMatch) && (|c.members| > 1 <==> c.level in {High, Medium})
  {
    var cs := GreedyClusters(n, m);
    GreedyClustersRules(n, m);
    forall a | 0 <= a < |cs|
      ensures (|cs[a].members| == 1 <==> cs[a].level == NoMatch) && (|cs[a].members| > 1 <==> cs[a].level in {High, Medium})
    {
      assert GreedyAt(n, m, cs, {}, 0, a);
      RulesLevel(n, m, cs[a], {} + Covered(cs[..a]), n);
    }
  }

  /** The number of members over all clusters. */
  function TotalSize(cs: seq<Cluster>): nat
    decreases |cs|
  {
    if cs == [] then 0 else |cs[0].members| + TotalSize(cs[1..])
  }

  lemma {:induction false} MemberSetSize(ms: seq<nat>)
    requires Increasing(ms)
    ensures |MemberSet(ms)| == |ms|
    decreases |ms|
  {
    if ms != [] {
      var last := |ms| - 1;
      var init := ms[..last];
      assert ms == init + [ms[last]];
      assert Increasing(init);
      MemberSetSize(init);
      assert MemberSet(ms) == MemberSet(init) + {ms[last]};
      forall k | 0 <= k < |init| ensures init[k] < ms[last] {
        assert init[k] == ms[k];
      }
      assert ms[last] !in init;
    }
  }

  lemma {:induction false} CoveredSize(cs: seq<Cluster>)
    requires Disjoint(cs)
    requires forall a :: 0 <= a < |cs| ==> Increasing(cs[a].members)
    ensures |Covered(cs)| == TotalSize(cs)
    decreases |cs|
  {
    if cs != [] {
      var rest := cs[1..];
      forall a, b, x | 0 <= a < b < |rest| && x in rest[a].members ensures x !in rest[b].members {
        assert rest[a] == cs[a + 1] && rest[b] == cs[b + 1];
      }
      CoveredSize(rest);
      MemberSetSize(cs[0].members);
      forall x | x in MemberSet(cs[0].members) ensures x !in Covered(rest) {
        CoveredIff(rest, x);
        forall a | 0 <= a < |rest| ensures x !in rest[a].members {
          assert rest[a] == cs[a + 1];
        }
      }
      assert MemberSet(cs[0].members) * Covered(rest) == {};
    }
  }

  /** The positions below `n`. */
  function Below(n: nat): (r: set<nat>)
    ensures forall x: nat :: x in r <==> x < n
    decreases n
  {
    if n == 0 then {} else Below(n - 1) + {n - 1}
  }

  lemma {:induction false} BelowSize(n: nat)
    ensures |Below(n)| == n
    decreases n
  {
    if n > 0 {
      BelowSize(n - 1);
    }
  }

  /** The clusters of a batch of `n` records have `n` members in all. */
  lemma {:induction false} GreedyClustersSize(n: nat, m: Pairing)
    ensures TotalSize(GreedyClusters(n, m)) == n
  {
    var cs := GreedyClusters(n, m);
    GreedyClustersPartition(n, m);
    assert Covered(cs) == Below(n);
    BelowSize(n);
    CoveredSize(cs);
  }

  /** The member positions of the clusters `cs`, cluster after cluster. */
  function AllMembers(cs: seq<Cluster>): seq<nat>
    decreases |cs|
  {
    if cs == [] then [] else cs[0].members + AllMembers(cs[1..])
  }

  /** The positions of a batch of `n` records, in order. */
  function Positions(n: nat): (r: seq<nat>)
    ensures |r| == n && forall i :: 0 <= i < n ==> r[i] == i
  {
    seq(n, i => i)
  }

  /** An increasing list holds each of its elements once. */
  lemma {:induction false} IncreasingCount(ms: seq<nat>)
    requires Increasing(ms)
    ensures forall x :: multiset(ms)[x] == if x in ms then 1 else 0
    decreases |ms|
  {
    if ms != [] {
      var last := |ms| - 1;
      var init := ms[..last];
      assert ms == init + [ms[last]];
      assert Increasing(init);
      IncreasingCount(init);
      forall k | 0 <= k < |init| ensures init[k] < ms[last] {
        assert init[k] == ms[k];
      }
      assert ms[last] !in init;
      forall x ensures multiset(ms)[x] == if x in ms then 1 else 0 {
        assert multiset(ms)[x] == multiset(init)[x] + multiset([ms[last]])[x];
        assert x in ms <==> x in init || x == ms[last];
      }
    }
  }

  /** Disjoint clusters of increasing members list every covered position exactly once. */
  lemma {:induction false} AllMembersCount(cs: seq<Cluster>)
    requires Disjoint(cs)
    requires forall a :: 0 <= a < |cs| ==> Increasing(cs[a].members)
    ensures forall x :: multiset(AllMembers(cs))[x] == if x in Covered(cs) then 1 else 0
    decreases |cs|
  {
    if cs != [] {
      var rest := cs[1..];
      forall a, b, x | 0 <= a < b < |rest| && x in rest[a].members ensures x !in rest[b].members {
        assert rest[a] == cs[a + 1] && rest[b] == cs[b + 1];
      }
      forall a | 0 <= a < |rest| ensures Increasing(rest[a].members) {
        assert rest[a] == cs[a + 1];
      }
      AllMembersCount(rest);
      IncreasingCount(cs[0].members);
      forall x ensures multiset(AllMembers(cs))[x] == if x in Covered(cs) then 1 else 0 {
        assert multiset(AllMembers(cs))[x] == multiset(cs[0].members)[x] + multiset(AllMembers(rest))[x];
        if x in cs[0].members {
          CoveredIff(rest, x);
          forall a | 0 <= a < |rest| ensures x !in rest[a].members {
            assert rest[a] == cs[a + 1];
          }
        }
      }
    }
  }

  /**
   * Every position of the batch belongs to exactly one cluster: the clusters'
   * members, taken together, are a permutation of the positions.
   */
  lemma {:induction false} GreedyClustersPermutation(n: nat, m: Pairing)
    ensures multiset(AllMembers(GreedyClusters(n, m))) == multiset(Positions(n))
  {
    var cs := GreedyClusters(n, m);
    GreedyClustersPartition(n, m);
    AllMembersCount(cs);
    var ps := Positions(n);
    assert Increasing(ps);
    IncreasingCount(ps);
    forall x: nat ensures multiset(AllMembers(cs))[x] == multiset(ps)[x] {
      assert x in ps <==> x < n by {
        if x < n { assert ps[x] == x; }
      }
    }
  }

  /** With every match confidence in [0, 1], so is the confidence of a cluster. */
  lemma {:induction false} MaxConfidenceBounds(m: Pairing, s: nat, ms: seq<nat>)
    requires forall x: nat :: 0.0 <= m(s, x).1 <= 1.0
    ensures 0.0 <= MaxConfidence(m, s, ms) <= 1.0
    decreases |ms|
  {
    if ms != [] {
      MaxConfidenceBounds(m, s, ms[..|ms| - 1]);
    }
  }

  /** `match_confidence` never answers `none`, and its confidence lies in [0, 1]. */
  lemma {:induction false} PairMatchRange(raw: seq<RawProspect>, ratio: (string, string) -> Ratio, a: nat, b: nat)
    ensures PairMatch(raw, ratio)(a, b).0 != NoMatch || !(a < |raw| && b < |raw|)
    ensures 0.0 <= PairMatch(raw, ratio)(a, b).1 <= 1.0
  {
    if a < |raw| && b < |raw| {
      var r := MatchConfidence(raw[a], raw[b], ratio);
      assert r.0 != NoMatch;
    }
  }

  /**
   * Order matters: a `medium` match seen before any `high` one joins, and the
   * cluster still ends `high`.
   */
  lemma {:induction false} MediumThenHigh(m: Pairing)
    requires m(0, 1).0 == Medium && m(0, 2).0 == High
    ensures GreedyClusters(3, m) == [Cluster([0, 1, 2], High, Max(Max(0.0, m(0, 1).1), m(0, 2).1))]
  {
    var c1 := Cluster([0, 1], Medium, Max(0.0, m(0, 1).1));
    var c2 := Cluster([0, 1, 2], High, Max(c1.confidence, m(0, 2).1));
    assert [0] + [1] == [0, 1] && [0, 1] + [2] == [0, 1, 2];
    assert {0} + {1} == {0, 1} && {0, 1} + {2} == {0, 1, 2};
    assert Consider(3, m, 0, 1, Cluster([0], NoMatch, 0.0), {0}) == (c1, {0, 1});
    assert Consider(3, m, 0, 2, c1, {0, 1}) == (c2, {0, 1, 2});
    assert {} + {0} == {0};
    assert Scan(3, m, 0, 2, c1, {0, 1}) == (c2, {0, 1, 2});
    assert Scan(3, m, 0, 1, Cluster([0], NoMatch, 0.0), {} + {0}) == (c2, {0, 1, 2});
    assert ClustersFrom(3, m, 1, {0, 1, 2}) == [];
  }

  /**
   * ... while a `medium` match seen after a `high` one is turned away and
   * seeds a cluster of its own.
   */
  lemma {:induction false} HighThenMedium(m: Pairing)
    requires m(0, 1).0 == High && m(0, 2).0 == Medium
    ensures GreedyClusters(3, m) == [Cluster([0, 1], High, Max(0.0, m(0, 1).1)), Cluster([2], NoMatch, 0.0)]
  {
    var c1 := Cluster([0, 1], High, Max(0.0, m(0, 1).1));
    assert [0] + [1] == [0, 1];
    assert {0} + {1} == {0, 1};
    assert Consider(3, m, 0, 1, Cluster([0], NoMatch, 0.0), {0}) == (c1, {0, 1});
    assert Consider(3, m, 0, 2, c1, {0, 1}) == (c1, {0, 1});
    assert {} + {0} == {0};
    assert Scan(3, m, 0, 2, c1, {0, 1}) == (c1, {0, 1});
    assert Scan(3, m, 0, 1, Cluster([0], NoMatch, 0.0), {} + {0}) == (c1, {0, 1});
    assert ClustersFrom(3, m, 2, {0, 1}) == [Cluster([2], NoMatch, 0.0)];
  }
}

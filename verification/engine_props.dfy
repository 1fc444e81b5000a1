/**
 * What `DeduplicationEngine.process` guarantees about the engine state:
 * the counters follow the lists, identifiers and clock readings are drawn
 * once per record created, every raw record of a batch ends up in exactly one
 * place of the output, and the rates a fresh engine reports add up to at
 * most 50 percent. Also: counters and lists accumulate across calls while
 * `total_processed` does not, so the rates of a reused engine mix batches.
 */
module EngineProps {
  import opened Records
  import opened Matcher
  import opened Models
  import opened Clusters
  import opened Engine

  // ---------------------------------------------------------------------------
  // Counters and draws follow the lists

  /**
   * The counters equal the lengths of the lists, one identifier was drawn per
   * merged record and per flag, and one clock reading per canonical record.
   */
  predicate Consistent(s: EngineState) {
    && s.stats.autoMergedCount == |s.autoMerged|
    && s.stats.reviewFlaggedCount == |s.reviewFlagged|
    && s.stats.unmatchedCount == |s.unmatched|
    && s.idsUsed == |s.autoMerged| + |s.reviewFlagged|
    && s.clockReads == |s.autoMerged| + |s.unmatched|
  }

  /** `r` keeps the lists of `s` as prefixes. */
  predicate Extends(s: EngineState, r: EngineState) {
    && |s.autoMerged| <= |r.autoMerged| && r.autoMerged[..|s.autoMerged|] == s.autoMerged
    && |s.reviewFlagged| <= |r.reviewFlagged| && r.reviewFlagged[..|s.reviewFlagged|] == s.reviewFlagged
    && |s.unmatched| <= |r.unmatched| && r.unmatched[..|s.unmatched|] == s.unmatched
  }

  lemma {:induction false} ExtendsTransitive(s: EngineState, t: EngineState, r: EngineState)
    requires Extends(s, t) && Extends(t, r)
    ensures Extends(s, r)
  {
    assert r.autoMerged[..|s.autoMerged|] == r.autoMerged[..|t.autoMerged|][..|s.autoMerged|];
    assert r.reviewFlagged[..|s.reviewFlagged|] == r.reviewFlagged[..|t.reviewFlagged|][..|s.reviewFlagged|];
    assert r.unmatched[..|s.unmatched|] == r.unmatched[..|t.unmatched|][..|s.unmatched|];
  }

  lemma {:induction false} FreshConsistent()
    ensures Consistent(Fresh)
  {
  }

  lemma {:induction false} AddEachConsistent(s: EngineState, raws: seq<RawProspect>, clock: nat -> string)
    requires Consistent(s)
    ensures Consistent(AddEach(s, raws, clock)) && Extends(s, AddEach(s, raws, clock))
    ensures AddEach(s, raws, clock).stats.totalProcessed == s.stats.totalProcessed
    decreases |raws|
  {
    if raws != [] {
      var t := AddUnmatched(s, raws[0], clock);
      assert t.unmatched[..|s.unmatched|] == s.unmatched;
      AddEachConsistent(t, raws[1..], clock);
      ExtendsTransitive(s, t, AddEach(t, raws[1..], clock));
    }
  }

  lemma {:induction false} RouteClusterConsistent(s: EngineState, raw: seq<RawProspect>, c: Cluster, ids: nat -> string, clock: nat -> string)
    requires Shaped(|raw|, c) && Consistent(s)
    ensures Consistent(RouteCluster(s, raw, c, ids, clock)) && Extends(s, RouteCluster(s, raw, c, ids, clock))
    ensures RouteCluster(s, raw, c, ids, clock).stats.totalProcessed == s.stats.totalProcessed
  {
    var r := RouteCluster(s, raw, c, ids, clock);
    if |c.members| == 1 {
      assert r.unmatched[..|s.unmatched|] == s.unmatched;
    } else if c.level == High {
      assert r.autoMerged[..|s.autoMerged|] == s.autoMerged;
    } else if c.level == Medium {
      assert r.reviewFlagged[..|s.reviewFlagged|] == s.reviewFlagged;
    } else {
      AddEachConsistent(s, RecordsOf(raw, c.members), clock);
    }
  }

  lemma {:induction false} RouteAllConsistent(s: EngineState, raw: seq<RawProspect>, cs: seq<Cluster>,
                                              ids: nat -> string, clock: nat -> string)
    requires AllShaped(|raw|, cs) && Consistent(s)
    ensures Consistent(RouteAll(s, raw, cs, ids, clock)) && Extends(s, RouteAll(s, raw, cs, ids, clock))
    ensures RouteAll(s, raw, cs, ids, clock).stats.totalProcessed == s.stats.totalProcessed
    decreases |cs|
  {
    if cs != [] {
      var t := RouteCluster(s, raw, cs[0], ids, clock);
      RouteClusterConsistent(s, raw, cs[0], ids, clock);
      assert AllShaped(|raw|, cs[1..]);
      RouteAllConsistent(t, raw, cs[1..], ids, clock);
      ExtendsTransitive(s, t, RouteAll(t, raw, cs[1..], ids, clock));
    }
  }

  /**
   * `process` keeps the counters equal to the list lengths and draws one
   * identifier or clock reading per record it creates; it only appends to the
   * lists, and `total_processed` becomes the size of this batch alone.
   */
  lemma {:induction false} ProcessConsistent(s: EngineState, raw: seq<RawProspect>, ratio: (string, string) -> Ratio,
                          ids: nat -> string, clock: nat -> string)
    requires Consistent(s)
    ensures Consistent(ProcessSpec(s, raw, ratio, ids, clock))
    ensures Extends(s, ProcessSpec(s, raw, ratio, ids, clock))
    ensures ProcessSpec(s, raw, ratio, ids, clock).stats.totalProcessed == |raw|
  {
    var cs := GreedyClusters(|raw|, PairMatch(raw, ratio));
    ProcessSpecWith(s, raw, ratio, ids, clock, cs);
    RouteAllConsistent(s.(stats := s.stats.(totalProcessed := |raw|)), raw, cs, ids, clock);
  }

  // ---------------------------------------------------------------------------
  // Every raw record lands in exactly one place

  /** The number of sources over the canonical records `vs`. */
  function SourceCount(vs: seq<CanonicalView>): nat
    decreases |vs|
  {
    if vs == [] then 0 else SourceCount(vs[..|vs| - 1]) + |vs[|vs| - 1].sources|
  }

  /** The number of raw records over the review flags `fs`. */
  function FlagCount(fs: seq<ReviewFlag>): nat
    decreases |fs|
  {
    if fs == [] then 0 else FlagCount(fs[..|fs| - 1]) + |fs[|fs| - 1].prospects|
  }

  /** The raw records the engine state accounts for: sources of canonical records and flagged records. */
  function Accounted(s: EngineState): nat {
    SourceCount(s.autoMerged) + FlagCount(s.reviewFlagged) + SourceCount(s.unmatched)
  }

  lemma {:induction false} SourceCountAppend(vs: seq<CanonicalView>, v: CanonicalView)
    ensures SourceCount(vs + [v]) == SourceCount(vs) + |v.sources|
  {
    assert (vs + [v])[..|vs|] == vs;
  }

  lemma {:induction false} FlagCountAppend(fs: seq<ReviewFlag>, f: ReviewFlag)
    ensures FlagCount(fs + [f]) == FlagCount(fs) + |f.prospects|
  {
    assert (fs + [f])[..|fs|] == fs;
  }

  lemma {:induction false} AddUnmatchedAccounted(s: EngineState, raw: RawProspect, clock: nat -> string)
    ensures Accounted(AddUnmatched(s, raw, clock)) == Accounted(s) + 1
  {
    SourceCountAppend(s.unmatched, UnmatchedView(raw, clock(s.clockReads)));
  }

  lemma {:induction false} AddEachAccounted(s: EngineState, raws: seq<RawProspect>, clock: nat -> string)
    ensures Accounted(AddEach(s, raws, clock)) == Accounted(s) + |raws|
    decreases |raws|
  {
    if raws != [] {
      AddUnmatchedAccounted(s, raws[0], clock);
      AddEachAccounted(AddUnmatched(s, raws[0], clock), raws[1..], clock);
    }
  }

  lemma {:induction false} RouteClusterAccounted(s: EngineState, raw: seq<RawProspect>, c: Cluster, ids: nat -> string, clock: nat -> string)
    requires Shaped(|raw|, c)
    ensures Accounted(RouteCluster(s, raw, c, ids, clock)) == Accounted(s) + |c.members|
  {
    var rs := RecordsOf(raw, c.members);
    if |c.members| == 1 {
      AddUnmatchedAccounted(s, raw[c.members[0]], clock);
    } else if c.level == High {
      var v := MergedView(rs, ids(s.idsUsed), clock(s.clockReads));
      MergedViewSpec(rs, ids(s.idsUsed), clock(s.clockReads));
      SourceCountAppend(s.autoMerged, v);
    } else if c.level == Medium {
      FlagCountAppend(s.reviewFlagged, ReviewFlag(ids(s.idsUsed), c.confidence, rs, ReviewReason, ReviewAction));
    } else {
      AddEachAccounted(s, rs, clock);
    }
  }

  lemma {:induction false} RouteAllAccounted(s: EngineState, raw: seq<RawProspect>, cs: seq<Cluster>,
                                             ids: nat -> string, clock: nat -> string)
    requires AllShaped(|raw|, cs)
    ensures Accounted(RouteAll(s, raw, cs, ids, clock)) == Accounted(s) + TotalSize(cs)
    decreases |cs|
  {
    if cs != [] {
      RouteClusterAccounted(s, raw, cs[0], ids, clock);
      assert AllShaped(|raw|, cs[1..]);
      RouteAllAccounted(RouteCluster(s, raw, cs[0], ids, clock), raw, cs[1..], ids, clock);
    }
  }

  /**
   * The number of raw records the state accounts for, as sources of
   * canonical records or entries of review flags, grows by the batch size.
   */
  lemma {:induction false} ProcessAccounted(s: EngineState, raw: seq<RawProspect>, ratio: (string, string) -> Ratio,
                         ids: nat -> string, clock: nat -> string)
    ensures Accounted(ProcessSpec(s, raw, ratio, ids, clock)) == Accounted(s) + |raw|
  {
    var cs := GreedyClusters(|raw|, PairMatch(raw, ratio));
    ProcessSpecWith(s, raw, ratio, ids, clock, cs);
    RouteAllAccounted(s.(stats := s.stats.(totalProcessed := |raw|)), raw, cs, ids, clock);
    GreedyClustersSize(|raw|, PairMatch(raw, ratio));
  }

  // ---------------------------------------------------------------------------
  // Which raw records land where

  /** The source references of the records `rs`, in order. */
  function RefsOf(rs: seq<RawProspect>): (r: seq<SourceReference>)
    ensures |r| == |rs| && forall k :: 0 <= k < |rs| ==> r[k] == SourceOf(rs[k])
  {
    seq(|rs|, k requires 0 <= k < |rs| => SourceOf(rs[k]))
  }

  /** Every position in `ms` is a position of a batch of `n` records. */
  predicate InBatch(n: nat, ms: seq<nat>) {
    forall k :: 0 <= k < |ms| ==> ms[k] < n
  }

  /** The source references of the records at the positions `ms` of the batch. */
  function RefsAt(raw: seq<RawProspect>, ms: seq<nat>): (r: seq<SourceReference>)
    requires InBatch(|raw|, ms)
    ensures |r| == |ms| && forall k :: 0 <= k < |ms| ==> r[k] == SourceOf(raw[ms[k]])
  {
    RefsOf(RecordsOf(raw, ms))
  }

  /** The sources of the canonical records `vs`, as a multiset. */
  function SourceBag(vs: seq<CanonicalView>): multiset<SourceReference>
    decreases |vs|
  {
    if vs == [] then multiset{} else SourceBag(vs[..|vs| - 1]) + multiset(vs[|vs| - 1].sources)
  }

  /** The references of the records held by the review flags `fs`, as a multiset. */
  function FlagBag(fs: seq<ReviewFlag>): multiset<SourceReference>
    decreases |fs|
  {
    if fs == [] then multiset{} else FlagBag(fs[..|fs| - 1]) + multiset(RefsOf(fs[|fs| - 1].prospects))
  }

  /** The raw records the engine state accounts for, each by its source reference. */
  function AccountedBag(s: EngineState): multiset<SourceReference> {
    SourceBag(s.autoMerged) + FlagBag(s.reviewFlagged) + SourceBag(s.unmatched)
  }

  lemma {:induction false} RefsAtAppend(raw: seq<RawProspect>, p: seq<nat>, q: seq<nat>)
    requires InBatch(|raw|, p) && InBatch(|raw|, q)
    ensures InBatch(|raw|, p + q)
    ensures RefsAt(raw, p + q) == RefsAt(raw, p) + RefsAt(raw, q)
  {
    assert forall k :: 0 <= k < |p| ==> (p + q)[k] == p[k];
    assert forall k :: |p| <= k < |p + q| ==> (p + q)[k] == q[k - |p|];
  }

  /** Taking the first element out of `a` and one occurrence of it out of `b`, when both hold the same elements. */
  lemma {:induction false} MultisetRemove(a: seq<nat>, pre: seq<nat>, x: nat, post: seq<nat>)
    requires a != [] && a[0] == x && multiset(a) == multiset(pre + [x] + post)
    ensures multiset(a[1..]) == multiset(pre + post)
  {
    assert a == [x] + a[1..];
    forall y ensures multiset(a[1..])[y] == multiset(pre + post)[y] {
      assert multiset(a)[y] == multiset([x])[y] + multiset(a[1..])[y];
      assert multiset(pre + [x] + post)[y] == multiset(pre)[y] + multiset([x])[y] + multiset(post)[y];
    }
  }

  /** The references of `pre + [x] + post` are those of `[x]` and of `pre + post`. */
  lemma {:induction false} RefsAtSplice(raw: seq<RawProspect>, pre: seq<nat>, x: nat, post: seq<nat>)
    requires InBatch(|raw|, pre) && x < |raw| && InBatch(|raw|, post)
    ensures InBatch(|raw|, pre + [x] + post) && InBatch(|raw|, pre + post)
    ensures multiset(RefsAt(raw, pre + [x] + post)) == multiset(RefsAt(raw, [x])) + multiset(RefsAt(raw, pre + post))
  {
    RefsAtAppend(raw, pre, [x]);
    RefsAtAppend(raw, pre + [x], post);
    RefsAtAppend(raw, pre, post);
  }

  lemma {:induction false} InBatchPermutation(n: nat, a: seq<nat>, b: seq<nat>)
    requires InBatch(n, a) && multiset(a) == multiset(b)
    ensures InBatch(n, b)
  {
    forall k | 0 <= k < |b| ensures b[k] < n {
      assert b[k] in multiset(a);
      var i :| 0 <= i < |a| && a[i] == b[k];
    }
  }

  /** A position `x` that `b` holds splits `b` around one occurrence of it. */
  lemma SplitAround(n: nat, b: seq<nat>, x: nat) returns (pre: seq<nat>, post: seq<nat>)
    requires InBatch(n, b) && x in multiset(b)
    ensures b == pre + [x] + post && x < n
    ensures InBatch(n, pre) && InBatch(n, post)
  {
    var j :| 0 <= j < |b| && b[j] == x;
    pre, post := b[..j], b[j + 1..];
    assert b == pre + [x] + post;
  }

  /** Positions listed in any order give the same references, counted with multiplicity. */
  lemma {:induction false} RefsAtPermutation(raw: seq<RawProspect>, a: seq<nat>, b: seq<nat>)
    requires InBatch(|raw|, a) && multiset(a) == multiset(b)
    ensures InBatch(|raw|, b)
    ensures multiset(RefsAt(raw, a)) == multiset(RefsAt(raw, b))
    decreases |a|
  {
    InBatchPermutation(|raw|, a, b);
    if a == [] {
      assert |b| == |multiset(b)| == 0;
    } else {
      var x, rest := a[0], a[1..];
      assert a == [x] + rest;
      assert x in multiset(b);
      var pre, post := SplitAround(|raw|, b, x);
      MultisetRemove(a, pre, x, post);
      RefsAtPermutation(raw, rest, pre + post);
      RefsAtAppend(raw, [x], rest);
      RefsAtSplice(raw, pre, x, post);
    }
  }

  lemma {:induction false} SourceBagAppend(vs: seq<CanonicalView>, v: CanonicalView)
    ensures SourceBag(vs + [v]) == SourceBag(vs) + multiset(v.sources)
  {
    assert (vs + [v])[..|vs|] == vs;
  }

  lemma {:induction false} FlagBagAppend(fs: seq<ReviewFlag>, f: ReviewFlag)
    ensures FlagBag(fs + [f]) == FlagBag(fs) + multiset(RefsOf(f.prospects))
  {
    assert (fs + [f])[..|fs|] == fs;
  }

  lemma {:induction false} AddUnmatchedBag(s: EngineState, raw: RawProspect, clock: nat -> string)
    ensures AccountedBag(AddUnmatched(s, raw, clock)) == AccountedBag(s) + multiset{SourceOf(raw)}
  {
    SourceBagAppend(s.unmatched, UnmatchedView(raw, clock(s.clockReads)));
  }

  lemma {:induction false} AddEachBag(s: EngineState, raws: seq<RawProspect>, clock: nat -> string)
    ensures AccountedBag(AddEach(s, raws, clock)) == AccountedBag(s) + multiset(RefsOf(raws))
    decreases |raws|
  {
    if raws != [] {
      var t := AddUnmatched(s, raws[0], clock);
      AddUnmatchedBag(s, raws[0], clock);
      AddEachBag(t, raws[1..], clock);
      assert AddEach(s, raws, clock) == AddEach(t, raws[1..], clock);
      RefsOfCons(raws);
    }
  }

  lemma {:induction false} RefsOfCons(raws: seq<RawProspect>)
    requires raws != []
    ensures multiset(RefsOf(raws)) == multiset{SourceOf(raws[0])} + multiset(RefsOf(raws[1..]))
  {
    assert RefsOf(raws) == [SourceOf(raws[0])] + RefsOf(raws[1..]);
  }

  /** Routing a cluster accounts for exactly the records at its positions. */
  lemma {:induction false} RouteClusterBag(s: EngineState, raw: seq<RawProspect>, c: Cluster, ids: nat -> string, clock: nat -> string)
    requires Shaped(|raw|, c)
    ensures InBatch(|raw|, c.members)
    ensures AccountedBag(RouteCluster(s, raw, c, ids, clock)) == AccountedBag(s) + multiset(RefsAt(raw, c.members))
  {
    var rs := RecordsOf(raw, c.members);
    if |c.members| == 1 {
      AddUnmatchedBag(s, raw[c.members[0]], clock);
      assert RefsAt(raw, c.members) == [SourceOf(raw[c.members[0]])];
    } else if c.level == High {
      var v := MergedView(rs, ids(s.idsUsed), clock(s.clockReads));
      MergedViewSpec(rs, ids(s.idsUsed), clock(s.clockReads));
      assert v.sources == RefsOf(rs);
      SourceBagAppend(s.autoMerged, v);
    } else if c.level == Medium {
      FlagBagAppend(s.reviewFlagged, ReviewFlag(ids(s.idsUsed), c.confidence, rs, ReviewReason, ReviewAction));
    } else {
      AddEachBag(s, rs, clock);
    }
  }

  /** The routing loop accounts for exactly the records at the clusters' positions. */
  lemma {:induction false} RouteAllBag(s: EngineState, raw: seq<RawProspect>, cs: seq<Cluster>,
                                       ids: nat -> string, clock: nat -> string)
    requires AllShaped(|raw|, cs)
    ensures InBatch(|raw|, AllMembers(cs))
    ensures AccountedBag(RouteAll(s, raw, cs, ids, clock)) == AccountedBag(s) + multiset(RefsAt(raw, AllMembers(cs)))
    decreases |cs|
  {
    if cs != [] {
      var t := RouteCluster(s, raw, cs[0], ids, clock);
      RouteClusterBag(s, raw, cs[0], ids, clock);
      assert AllShaped(|raw|, cs[1..]);
      RouteAllBag(t, raw, cs[1..], ids, clock);
      RefsAtAppend(raw, cs[0].members, AllMembers(cs[1..]));
    }
  }

  /**
   * Every raw record of the batch ends up in exactly one place: the source
   * references the state holds in merged records, review flags and unmatched
   * records grow by exactly the batch's references, each as often as it
   * occurs in the batch.
   */
  lemma {:induction false} ProcessPlacesEachRecord(s: EngineState, raw: seq<RawProspect>, ratio: (string, string) -> Ratio,
                                                   ids: nat -> string, clock: nat -> string)
    ensures AccountedBag(ProcessSpec(s, raw, ratio, ids, clock)) == AccountedBag(s) + multiset(RefsOf(raw))
  {
    var cs := GreedyClusters(|raw|, PairMatch(raw, ratio));
    ProcessSpecWith(s, raw, ratio, ids, clock, cs);
    RouteAllBag(s.(stats := s.stats.(totalProcessed := |raw|)), raw, cs, ids, clock);
    GreedyClustersPermutation(|raw|, PairMatch(raw, ratio));
    var ps := Positions(|raw|);
    RefsAtPermutation(raw, AllMembers(cs), ps);
    assert RefsAt(raw, ps) == RefsOf(raw);
  }

  // ---------------------------------------------------------------------------
  // Merges and flags hold at least two records

  /** Merged records and flags hold at least two raw records, unmatched records exactly one. */
  predicate Sized(s: EngineState) {
    && (forall k :: 0 <= k < |s.autoMerged| ==> |s.autoMerged[k].sources| >= 2)
    && (forall k :: 0 <= k < |s.reviewFlagged| ==> |s.reviewFlagged[k].prospects| >= 2)
    && (forall k :: 0 <= k < |s.unmatched| ==> |s.unmatched[k].sources| == 1)
  }

  lemma {:induction false} AddEachSized(s: EngineState, raws: seq<RawProspect>, clock: nat -> string)
    requires Sized(s)
    ensures Sized(AddEach(s, raws, clock))
    decreases |raws|
  {
    if raws != [] {
      AddEachSized(AddUnmatched(s, raws[0], clock), raws[1..], clock);
    }
  }

  lemma {:induction false} RouteClusterSized(s: EngineState, raw: seq<RawProspect>, c: Cluster, ids: nat -> string, clock: nat -> string)
    requires Shaped(|raw|, c) && Sized(s)
    ensures Sized(RouteCluster(s, raw, c, ids, clock))
  {
    var rs := RecordsOf(raw, c.members);
    if |c.members| == 1 {
    } else if c.level == High {
      MergedViewSpec(rs, ids(s.idsUsed), clock(s.clockReads));
    } else if c.level == Medium {
    } else {
      AddEachSized(s, rs, clock);
    }
  }

  lemma {:induction false} RouteAllSized(s: EngineState, raw: seq<RawProspect>, cs: seq<Cluster>,
                                         ids: nat -> string, clock: nat -> string)
    requires AllShaped(|raw|, cs) && Sized(s)
    ensures Sized(RouteAll(s, raw, cs, ids, clock))
    decreases |cs|
  {
    if cs != [] {
      RouteClusterSized(s, raw, cs[0], ids, clock);
      assert AllShaped(|raw|, cs[1..]);
      RouteAllSized(RouteCluster(s, raw, cs[0], ids, clock), raw, cs[1..], ids, clock);
    }
  }

  lemma {:induction false} SourceCountAtLeast(vs: seq<CanonicalView>, least: nat)
    requires forall k :: 0 <= k < |vs| ==> |vs[k].sources| >= least
    ensures SourceCount(vs) >= least * |vs|
    decreases |vs|
  {
    if vs != [] {
      SourceCountAtLeast(vs[..|vs| - 1], least);
    }
  }

  lemma {:induction false} FlagCountAtLeast(fs: seq<ReviewFlag>, least: nat)
    requires forall k :: 0 <= k < |fs| ==> |fs[k].prospects| >= least
    ensures FlagCount(fs) >= least * |fs|
    decreases |fs|
  {
    if fs != [] {
      FlagCountAtLeast(fs[..|fs| - 1], least);
    }
  }

  /** Two rates over the same positive total, whose counts together are at most half of it, add up to at most 50. */
  lemma {:induction false} RatesBound(merged: nat, flagged: nat, total: nat)
    requires total > 0 && 2 * (merged + flagged) <= total
    ensures 0.0 <= (merged as real / total as real) * 100.0
    ensures 0.0 <= (flagged as real / total as real) * 100.0
    ensures (merged as real / total as real) * 100.0 + (flagged as real / total as real) * 100.0 <= 50.0
  {
    var t := total as real;
    var sum := (merged as real / t) * 100.0 + (flagged as real / t) * 100.0;
    assert sum == ((merged + flagged) as real * 100.0) / t;
    assert (merged + flagged) as real * 100.0 <= 50.0 * t;
  }

  /** `process` keeps merges and flags at two records or more. */
  lemma {:induction false} ProcessSized(s: EngineState, raw: seq<RawProspect>, ratio: (string, string) -> Ratio,
                     ids: nat -> string, clock: nat -> string)
    requires Sized(s)
    ensures Sized(ProcessSpec(s, raw, ratio, ids, clock))
  {
    var cs := GreedyClusters(|raw|, PairMatch(raw, ratio));
    ProcessSpecWith(s, raw, ratio, ids, clock, cs);
    RouteAllSized(s.(stats := s.stats.(totalProcessed := |raw|)), raw, cs, ids, clock);
  }

  /**
   * After `process`, the rates are the merged and flagged counts as
   * percentages of this batch's size; an empty batch leaves them as they were.
   */
  lemma {:induction false} ProcessRates(s: EngineState, raw: seq<RawProspect>, ratio: (string, string) -> Ratio,
                     ids: nat -> string, clock: nat -> string)
    ensures var r := ProcessSpec(s, raw, ratio, ids, clock);
            && (raw != [] ==> r.stats.mergeRate == (r.stats.autoMergedCount as real / |raw| as real) * 100.0)
            && (raw != [] ==> r.stats.flaggedRate == (r.stats.reviewFlaggedCount as real / |raw| as real) * 100.0)
            && (raw == [] ==> r.stats.mergeRate == s.stats.mergeRate && r.stats.flaggedRate == s.stats.flaggedRate)
  {
    var cs := GreedyClusters(|raw|, PairMatch(raw, ratio));
    ProcessSpecWith(s, raw, ratio, ids, clock, cs);
    RouteAllConsistentRates(s.(stats := s.stats.(totalProcessed := |raw|)), raw, cs, ids, clock);
  }

  lemma {:induction false} RouteAllConsistentRates(s: EngineState, raw: seq<RawProspect>, cs: seq<Cluster>,
                                                   ids: nat -> string, clock: nat -> string)
    requires AllShaped(|raw|, cs)
    ensures RouteAll(s, raw, cs, ids, clock).stats.totalProcessed == s.stats.totalProcessed
    ensures RouteAll(s, raw, cs, ids, clock).stats.mergeRate == s.stats.mergeRate
    ensures RouteAll(s, raw, cs, ids, clock).stats.flaggedRate == s.stats.flaggedRate
    decreases |cs|
  {
    if cs != [] {
      var t := RouteCluster(s, raw, cs[0], ids, clock);
      if !(|cs[0].members| == 1 || cs[0].level == High || cs[0].level == Medium) {
        AddEachKeepsRates(s, RecordsOf(raw, cs[0].members), clock);
      }
      assert AllShaped(|raw|, cs[1..]);
      RouteAllConsistentRates(t, raw, cs[1..], ids, clock);
    }
  }

  lemma {:induction false} AddEachKeepsRates(s: EngineState, raws: seq<RawProspect>, clock: nat -> string)
    ensures AddEach(s, raws, clock).stats.totalProcessed == s.stats.totalProcessed
    ensures AddEach(s, raws, clock).stats.mergeRate == s.stats.mergeRate
    ensures AddEach(s, raws, clock).stats.flaggedRate == s.stats.flaggedRate
    decreases |raws|
  {
    if raws != [] {
      AddEachKeepsRates(AddUnmatched(s, raws[0], clock), raws[1..], clock);
    }
  }

  /** An engine that has not created anything yet, as `__init__` leaves it. */
  predicate Unused(s: EngineState) {
    s.autoMerged == [] && s.reviewFlagged == [] && s.unmatched == [] && Consistent(s)
  }

  lemma {:induction false} FreshUnused()
    ensures Unused(Fresh)
  {
  }

  /**
   * On an unused engine, `process` accounts for every record of the batch
   * once, and for nothing else, and reports the batch size as the total.
   */
  lemma {:induction false} UnusedProcess(s: EngineState, raw: seq<RawProspect>, ratio: (string, string) -> Ratio,
                      ids: nat -> string, clock: nat -> string)
    requires Unused(s)
    ensures var r := ProcessSpec(s, raw, ratio, ids, clock);
            && Consistent(r)
            && r.stats.totalProcessed == |raw|
            && Accounted(r) == |raw|
            && AccountedBag(r) == multiset(RefsOf(raw))
  {
    ProcessConsistent(s, raw, ratio, ids, clock);
    ProcessAccounted(s, raw, ratio, ids, clock);
    ProcessPlacesEachRecord(s, raw, ratio, ids, clock);
    assert AccountedBag(s) == multiset{};
  }

  /**
   * On an unused engine, the rates `process` reports for a non-empty batch
   * are percentages that add up to at most 50: a merge or a flag takes at
   * least two records of the batch.
   */
  lemma {:induction false} UnusedRates(s: EngineState, raw: seq<RawProspect>, ratio: (string, string) -> Ratio,
                    ids: nat -> string, clock: nat -> string)
    requires Unused(s) && raw != []
    ensures var r := ProcessSpec(s, raw, ratio, ids, clock);
            && 0.0 <= r.stats.mergeRate && 0.0 <= r.stats.flaggedRate
            && r.stats.mergeRate + r.stats.flaggedRate <= 50.0
  {
    var r := ProcessSpec(s, raw, ratio, ids, clock);
    UnusedProcess(s, raw, ratio, ids, clock);
    ProcessSized(s, raw, ratio, ids, clock);
    SourceCountAtLeast(r.autoMerged, 2);
    FlagCountAtLeast(r.reviewFlagged, 2);
    var merged, flagged := r.stats.autoMergedCount, r.stats.reviewFlaggedCount;
    assert 2 * (merged + flagged) <= |raw|;
    ProcessRates(s, raw, ratio, ids, clock);
    RatesBound(merged, flagged, |raw|);
  }

  // ---------------------------------------------------------------------------
  // A reused engine

  /** An empty batch only resets the total; the rates of the previous batch stay. */
  lemma {:induction false} EmptyBatch(s: EngineState, ratio: (string, string) -> Ratio, ids: nat -> string, clock: nat -> string)
    ensures ProcessSpec(s, [], ratio, ids, clock) == s.(stats := s.stats.(totalProcessed := 0))
  {
    var cs := GreedyClusters(0, PairMatch([], ratio));
    ProcessSpecWith(s, [], ratio, ids, clock, cs);
    assert cs == [];
  }

  /**
   * A batch of one record on a reused engine: the record stays unmatched, yet
   * the merge rate reports all earlier merges against a total of one.
   */
  lemma {:induction false} SingleRecordBatch(s: EngineState, x: RawProspect, ratio: (string, string) -> Ratio,
                          ids: nat -> string, clock: nat -> string)
    ensures var r := ProcessSpec(s, [x], ratio, ids, clock);
            && r.unmatched == s.unmatched + [UnmatchedView(x, clock(s.clockReads))]
            && r.autoMerged == s.autoMerged
            && r.stats.totalProcessed == 1
            && r.stats.mergeRate == s.stats.autoMergedCount as real * 100.0
  {
    var m := PairMatch([x], ratio);
    var c := Cluster([0], NoMatch, 0.0);
    var seed: set<nat> := {} + {0};
    var r := Scan(1, m, 0, 1, c, seed);
    assert r == (c, seed);
    assert ClustersFrom(1, m, 1, seed) == [];
    assert ClustersFrom(1, m, 0, {}) == [c];
    ProcessSpecWith(s, [x], ratio, ids, clock, [c]);
    assert RecordsOf([x], c.members) == [x];
  }
}

/**
 * The deduplication engine (`DeduplicationEngine`,
 * internal/domain/pipeline/engine.py): it clusters a batch of raw records,
 * routes every cluster to auto-merge, manual review or the unmatched list,
 * keeps running counters, and reports a summary.
 *
 * `uuid.uuid4()` and `datetime.utcnow()` are oracles given to the engine:
 * `ids(k)` is the k-th fresh identifier drawn and `clock(k)` the k-th clock
 * reading. The engine's fields are specified by `EngineState`, a value
 * snapshot, and by pure functions on it.
 */
module Engine {
  import opened Wrappers
  import opened Records
  import opened Matcher
  import opened Models
  import opened Clusters

  /** The `stats` dictionary. */
  datatype Stats = Stats(
    totalProcessed: nat,
    autoMergedCount: nat,
    reviewFlaggedCount: nat,
    unmatchedCount: nat,
    mergeRate: real,
    flaggedRate: real)

  /** An entry of `review_flagged`. */
  datatype ReviewFlag = ReviewFlag(
    flagId: string,
    matchConfidence: real,
    prospects: seq<RawProspect>,
    reason: string,
    recommendedAction: string)

  const ReviewReason := "Medium confidence match - requires manual review"
  const ReviewAction := "Verify if these represent the same entity"

  /** The engine's fields as values, with the number of identifiers drawn and clock readings taken. */
  datatype EngineState = EngineState(
    autoMerged: seq<CanonicalView>,
    reviewFlagged: seq<ReviewFlag>,
    unmatched: seq<CanonicalView>,
    stats: Stats,
    idsUsed: nat,
    clockReads: nat)

  const InitialStats := Stats(0, 0, 0, 0, 0.0, 0.0)

  /** A new engine. */
  const Fresh := EngineState([], [], [], InitialStats, 0, 0)

  // ---------------------------------------------------------------------------
  // The canonical records the engine creates

  /** `_create_unmatched_prospect`: the canonical record of a single raw record, created at `createdAt`. */
  function UnmatchedView(raw: RawProspect, createdAt: string): CanonicalView
  {
    CanonicalView(raw.prospectId, raw.name, AddContact(ContactView({}, {}, {}), raw), raw.location,
                  AboutTexts(raw.about), raw.businessContext, raw.discoveryConfidence, [SourceOf(raw)], createdAt)
  }

  /** The record `_create_merged_prospect` builds from the first member before merging. */
  function BaseView(base: RawProspect, id: string, createdAt: string): CanonicalView
  {
    CanonicalView(id, base.name, ContactView({}, {}, {}), base.location, AboutTexts(base.about),
                  base.businessContext, base.discoveryConfidence, [], createdAt)
  }

  /** `_create_merged_prospect`: the base record with every member, the base included, merged in. */
  function MergedView(raws: seq<RawProspect>, id: string, createdAt: string): CanonicalView
    requires raws != []
  {
    MergeAll(BaseView(raws[0], id, createdAt), raws)
  }

  /** An unmatched canonical record keeps the raw identifier and holds one source and only its own contacts. */
  lemma {:induction false} UnmatchedViewSpec(raw: RawProspect, createdAt: string)
    ensures var v := UnmatchedView(raw, createdAt);
            && v.prospectId == raw.prospectId
            && v.sources == [SourceOf(raw)]
            && (forall e :: e in v.contact.emails <==> Truthy(raw.contact.email) && e == raw.contact.email.value)
            && (forall p :: p in v.contact.phones <==> Truthy(raw.contact.phone) && p == raw.contact.phone.value)
            && (forall w :: w in v.contact.websites <==> Truthy(raw.contact.website) && w == raw.contact.website.value)
  {
  }

  /**
   * A merged canonical record has the fresh identifier, the first member's
   * name and location, one source per member in member order, and the first
   * truthy business context, starting with the first member's.
   */
  lemma {:induction false} MergedViewSpec(raws: seq<RawProspect>, id: string, createdAt: string)
    requires raws != []
    ensures var v := MergedView(raws, id, createdAt);
            && v.prospectId == id && v.name == raws[0].name && v.location == raws[0].location
            && |v.sources| == |raws|
            && (forall k :: 0 <= k < |raws| ==> v.sources[k] == SourceOf(raws[k]))
            && (Truthy(raws[0].businessContext) ==> v.businessContext == raws[0].businessContext)
  {
    var b := BaseView(raws[0], id, createdAt);
    MergeAllSources(b, raws);
    MergeAllKeeps(b, raws);
    if Truthy(raws[0].businessContext) {
      var b1 := MergeView(b, raws[0]);
      assert MergeAll(b, raws) == MergeAll(b1, raws[1..]);
      MergeAllKeeps(b1, raws[1..]);
    }
  }

  // ---------------------------------------------------------------------------
  // Routing clusters

  /** The records at the positions `ms` of the batch. */
  function RecordsOf(raw: seq<RawProspect>, ms: seq<nat>): (rs: seq<RawProspect>)
    requires forall k :: 0 <= k < |ms| ==> ms[k] < |raw|
    ensures |rs| == |ms| && forall k :: 0 <= k < |ms| ==> rs[k] == raw[ms[k]]
  {
    seq(|ms|, k requires 0 <= k < |ms| => raw[ms[k]])
  }

  function AddUnmatched(s: EngineState, raw: RawProspect, clock: nat -> string): EngineState
  {
    s.(unmatched := s.unmatched + [UnmatchedView(raw, clock(s.clockReads))],
       stats := s.stats.(unmatchedCount := s.stats.unmatchedCount + 1),
       clockReads := s.clockReads + 1)
  }

  function AddMerged(s: EngineState, raws: seq<RawProspect>, ids: nat -> string, clock: nat -> string): EngineState
    requires raws != []
  {
    s.(autoMerged := s.autoMerged + [MergedView(raws, ids(s.idsUsed), clock(s.clockReads))],
       stats := s.stats.(autoMergedCount := s.stats.autoMergedCount + 1),
       idsUsed := s.idsUsed + 1,
       clockReads := s.clockReads + 1)
  }

  function AddFlag(s: EngineState, raws: seq<RawProspect>, confidence: real, ids: nat -> string): EngineState
  {
    s.(reviewFlagged := s.reviewFlagged + [ReviewFlag(ids(s.idsUsed), confidence, raws, ReviewReason, ReviewAction)],
       stats := s.stats.(reviewFlaggedCount := s.stats.reviewFlaggedCount + 1),
       idsUsed := s.idsUsed + 1)
  }

  /** Each record of `raws` added as an unmatched record, in order. */
  function AddEach(s: EngineState, raws: seq<RawProspect>, clock: nat -> string): EngineState
    decreases |raws|
  {
    if raws == [] then s else AddEach(AddUnmatched(s, raws[0], clock), raws[1..], clock)
  }

  /** One pass of the routing loop in `process`. */
  function RouteCluster(s: EngineState, raw: seq<RawProspect>, c: Cluster, ids: nat -> string, clock: nat -> string)
    : EngineState
    requires Shaped(|raw|, c)
  {
    if |c.members| == 1 then AddUnmatched(s, raw[c.members[0]], clock)
    else if c.level == High then AddMerged(s, RecordsOf(raw, c.members), ids, clock)
    else if c.level == Medium then AddFlag(s, RecordsOf(raw, c.members), c.confidence, ids)
    else AddEach(s, RecordsOf(raw, c.members), clock)
  }

  predicate AllShaped(n: nat, cs: seq<Cluster>) {
    forall a :: 0 <= a < |cs| ==> Shaped(n, cs[a])
  }

  /** The routing loop over `cs`. */
  function RouteAll(s: EngineState, raw: seq<RawProspect>, cs: seq<Cluster>, ids: nat -> string, clock: nat -> string)
    : EngineState
    requires AllShaped(|raw|, cs)
    decreases |cs|
  {
    if cs == [] then s else RouteAll(RouteCluster(s, raw, cs[0], ids, clock), raw, cs[1..], ids, clock)
  }

  /** `_calculate_stats`: the rates as percentages of the last batch size, left alone for an empty batch. */
  function WithRates(st: Stats): Stats
  {
    if st.totalProcessed > 0 then
      st.(mergeRate := (st.autoMergedCount as real / st.totalProcessed as real) * 100.0,
          flaggedRate := (st.reviewFlaggedCount as real / st.totalProcessed as real) * 100.0)
    else st
  }

  lemma {:induction false} GreedyClustersShaped(n: nat, m: Pairing)
    ensures AllShaped(n, GreedyClusters(n, m))
  {
    GreedyClustersPartition(n, m);
  }

  /** `process` on the engine state `s`, given the clusters `cs` of the batch `raw`. */
  function ProcessWith(s: EngineState, raw: seq<RawProspect>, cs: seq<Cluster>,
                       ids: nat -> string, clock: nat -> string): EngineState
    requires AllShaped(|raw|, cs)
  {
    var routed := RouteAll(s.(stats := s.stats.(totalProcessed := |raw|)), raw, cs, ids, clock);
    routed.(stats := WithRates(routed.stats))
  }

  /** `process` on the engine state `s`. */
  function ProcessSpec(s: EngineState, raw: seq<RawProspect>, ratio: (string, string) -> Ratio,
                       ids: nat -> string, clock: nat -> string): EngineState
  {
    GreedyClustersShaped(|raw|, PairMatch(raw, ratio));
    ProcessWith(s, raw, GreedyClusters(|raw|, PairMatch(raw, ratio)), ids, clock)
  }

  lemma {:induction false} ProcessSpecWith(s: EngineState, raw: seq<RawProspect>, ratio: (string, string) -> Ratio,
                        ids: nat -> string, clock: nat -> string, cs: seq<Cluster>)
    requires cs == GreedyClusters(|raw|, PairMatch(raw, ratio))
    ensures AllShaped(|raw|, cs)
    ensures ProcessSpec(s, raw, ratio, ids, clock) == ProcessWith(s, raw, cs, ids, clock)
  {
    GreedyClustersShaped(|raw|, PairMatch(raw, ratio));
  }

  // ---------------------------------------------------------------------------
  // The engine

  /** The `summary` of the output. */
  datatype Summary = Summary(
    totalRawProspectsProcessed: nat,
    canonicalProspectsCreated: nat,
    autoMergedCount: nat,
    reviewFlaggedCount: nat,
    unmatchedCount: nat,
    mergeRatePercent: real,
    flaggedRatePercent: real)

  /** The dictionary `process` returns. */
  datatype Output = Output(
    summary: Summary,
    prospectsForEnrichment: seq<CanonicalDict>,
    reviewFlagged: seq<ReviewFlag>,
    autoMergedDetails: seq<CanonicalDict>,
    unmatchedDetails: seq<CanonicalDict>)

  /** `ds` reports the records `vs`, in order. */
  predicate DictsOf(ds: seq<CanonicalDict>, vs: seq<CanonicalView>) {
    |ds| == |vs| && forall k :: 0 <= k < |ds| ==> DictOf(ds[k], vs[k])
  }

  /** What `_generate_output` reports for the state `s`. */
  predicate OutputOf(out: Output, s: EngineState) {
    && out.summary == Summary(s.stats.totalProcessed, |s.autoMerged| + |s.unmatched|,
                              s.stats.autoMergedCount, s.stats.reviewFlaggedCount, s.stats.unmatchedCount,
                              s.stats.mergeRate, s.stats.flaggedRate)
    && DictsOf(out.prospectsForEnrichment, s.autoMerged + s.unmatched)
    && out.reviewFlagged == s.reviewFlagged
    && DictsOf(out.autoMergedDetails, s.autoMerged)
    && DictsOf(out.unmatchedDetails, s.unmatched)
  }

  /** The objects a list of canonical records reads: the records and their contact sets. */
  function Reach(ps: seq<CanonicalProspect>): set<object>
  {
    (set p: CanonicalProspect | p in ps :: p as object) + (set p: CanonicalProspect | p in ps :: p.contact as object)
  }

  /** The fields of each record of `ps`. */
  function ViewsOf(ps: seq<CanonicalProspect>): (vs: seq<CanonicalView>)
    reads set p | p in ps, set p | p in ps :: p.contact
    ensures |vs| == |ps|
    decreases |ps|
  {
    if ps == [] then [] else ViewsOf(ps[..|ps| - 1]) + [ps[|ps| - 1].View()]
  }

  method ToDicts(ps: seq<CanonicalProspect>) returns (ds: seq<CanonicalDict>)
    ensures DictsOf(ds, ViewsOf(ps))
  {
    ds := [];
    var k := 0;
    while k < |ps|
      invariant 0 <= k <= |ps|
      invariant DictsOf(ds, ViewsOf(ps[..k]))
    {
      var d := ps[k].ToDict();
      assert ps[..k + 1][..k] == ps[..k];
      ds := ds + [d];
      k := k + 1;
    }
    assert ps[..|ps|] == ps;
  }

  /** The canonical record `_create_unmatched_prospect` builds, as a new object. */
  method NewUnmatched(raw: RawProspect, createdAt: string) returns (p: CanonicalProspect)
    ensures fresh(p) && fresh(p.contact)
    ensures p.View() == UnmatchedView(raw, createdAt)
  {
    var contact := new MergedContactInfo();
    if Truthy(raw.contact.email) {
      contact.emails := contact.emails + {raw.contact.email.value};
    }
    if Truthy(raw.contact.phone) {
      contact.phones := contact.phones + {raw.contact.phone.value};
    }
    if Truthy(raw.contact.website) {
      contact.websites := contact.websites + {raw.contact.website.value};
    }
    var about := AboutTexts(raw.about);
    p := new CanonicalProspect(raw.prospectId, raw.name, about, contact, raw.location,
                               raw.businessContext, raw.discoveryConfidence, createdAt);
    p.sources := p.sources + [SourceOf(raw)];
  }

  /** The canonical record `_create_merged_prospect` builds from the members `raws`, as a new object. */
  method NewMerged(raws: seq<RawProspect>, id: string, createdAt: string) returns (p: CanonicalProspect)
    requires raws != []
    ensures fresh(p) && fresh(p.contact)
    ensures p.View() == MergedView(raws, id, createdAt)
  {
    var base := raws[0];
    var contact := new MergedContactInfo();
    p := new CanonicalProspect(id, base.name, AboutTexts(base.about), contact, base.location,
                               base.businessContext, base.discoveryConfidence, createdAt);
    var k := 0;
    while k < |raws|
      invariant 0 <= k <= |raws|
      invariant fresh(p) && fresh(p.contact)
      invariant MergeAll(p.View(), raws[k..]) == MergedView(raws, id, createdAt)
    {
      assert raws[k..][1..] == raws[k + 1..];
      p.MergeWith(raws[k]);
      k := k + 1;
    }
  }

  lemma {:induction false} ViewsOfConcat(ps: seq<CanonicalProspect>, qs: seq<CanonicalProspect>)
    ensures ViewsOf(ps + qs) == ViewsOf(ps) + ViewsOf(qs)
    decreases |qs|
  {
    if qs != [] {
      var last := |qs| - 1;
      assert (ps + qs)[..|ps + qs| - 1] == ps + qs[..last];
      ViewsOfConcat(ps, qs[..last]);
    } else {
      assert ps + qs == ps;
    }
  }

  class DeduplicationEngine {
    var autoMerged: seq<CanonicalProspect>
    var reviewFlagged: seq<ReviewFlag>
    var unmatched: seq<CanonicalProspect>
    var stats: Stats
    const ids: nat -> string
    const clock: nat -> string
    var idsUsed: nat
    var clockReads: nat

    /** `__init__`: empty lists and zero counters. */
    constructor (ids: nat -> string, clock: nat -> string)
      ensures this.ids == ids && this.clock == clock
      ensures State() == Fresh
    {
      this.ids := ids;
      this.clock := clock;
      autoMerged, reviewFlagged, unmatched := [], [], [];
      stats := InitialStats;
      idsUsed, clockReads := 0, 0;
    }

    function Repr(): set<object>
      reads this
    {
      {this} + Reach(autoMerged) + Reach(unmatched)
    }

    function State(): EngineState
      reads Repr()
    {
      EngineState(ViewsOf(autoMerged), reviewFlagged, ViewsOf(unmatched), stats, idsUsed, clockReads)
    }

    /** `_create_unmatched_prospect`. */
    method CreateUnmatchedProspect(raw: RawProspect)
      modifies this
      ensures State() == AddUnmatched(old(State()), raw, clock)
    {
      var p := NewUnmatched(raw, clock(clockReads));
      assert (unmatched + [p])[..|unmatched|] == unmatched;
      unmatched, stats, clockReads :=
        unmatched + [p], stats.(unmatchedCount := stats.unmatchedCount + 1), clockReads + 1;
    }

    /** `_create_merged_prospect`. */
    method CreateMergedProspect(raws: seq<RawProspect>)
      requires raws != []
      modifies this
      ensures State() == AddMerged(old(State()), raws, ids, clock)
    {
      var p := NewMerged(raws, ids(idsUsed), clock(clockReads));
      assert (autoMerged + [p])[..|autoMerged|] == autoMerged;
      autoMerged, stats, idsUsed, clockReads :=
        autoMerged + [p], stats.(autoMergedCount := stats.autoMergedCount + 1), idsUsed + 1, clockReads + 1;
    }

    /** `_flag_for_review`. */
    method FlagForReview(raws: seq<RawProspect>, confidence: real)
      modifies this
      ensures State() == AddFlag(old(State()), raws, confidence, ids)
    {
      reviewFlagged := reviewFlagged + [ReviewFlag(ids(idsUsed), confidence, raws, ReviewReason, ReviewAction)];
      idsUsed := idsUsed + 1;
      stats := stats.(reviewFlaggedCount := stats.reviewFlaggedCount + 1);
    }

    /** `_calculate_stats`. */
    method CalculateStats()
      modifies this
      ensures State() == old(State()).(stats := WithRates(old(stats)))
    {
      var total := stats.totalProcessed;
      if total > 0 {
        stats := stats.(mergeRate := (stats.autoMergedCount as real / total as real) * 100.0,
                        flaggedRate := (stats.reviewFlaggedCount as real / total as real) * 100.0);
      }
    }

    /** `_generate_output`. */
    method GenerateOutput() returns (out: Output)
      ensures OutputOf(out, State())
    {
      ghost var s := State();
      ViewsOfConcat(autoMerged, unmatched);
      var all := ToDicts(autoMerged + unmatched);
      assert State() == s;
      var merged, single := all[..|autoMerged|], all[|autoMerged|..];
      var summary := Summary(stats.totalProcessed, |autoMerged| + |unmatched|, stats.autoMergedCount,
                             stats.reviewFlaggedCount, stats.unmatchedCount, stats.mergeRate, stats.flaggedRate);
      out := Output(summary, all, reviewFlagged, merged, single);
    }

    /** The `else` branch of the routing loop: every member becomes an unmatched record. */
    method CreateEachUnmatched(rs: seq<RawProspect>)
      modifies this
      ensures State() == AddEach(old(State()), rs, clock)
    {
      var j := 0;
      while j < |rs|
        invariant 0 <= j <= |rs|
        invariant AddEach(State(), rs[j..], clock) == AddEach(old(State()), rs, clock)
      {
        assert rs[j..][1..] == rs[j + 1..];
        CreateUnmatchedProspect(rs[j]);
        j := j + 1;
      }
    }

    /** One pass of the routing loop in `process`. */
    method Route(raw: seq<RawProspect>, c: Cluster)
      requires Shaped(|raw|, c)
      modifies this
      ensures State() == RouteCluster(old(State()), raw, c, ids, clock)
    {
      if |c.members| == 1 {
        CreateUnmatchedProspect(raw[c.members[0]]);
      } else if c.level == High {
        CreateMergedProspect(RecordsOf(raw, c.members));
      } else if c.level == Medium {
        FlagForReview(RecordsOf(raw, c.members), c.confidence);
      } else {
        CreateEachUnmatched(RecordsOf(raw, c.members));
      }
    }

    /** The routing loop of `process` over the clusters `cs`. */
    method RouteClusters(raw: seq<RawProspect>, cs: seq<Cluster>)
      requires AllShaped(|raw|, cs)
      modifies this
      ensures State() == RouteAll(old(State()), raw, cs, ids, clock)
    {
      var k := 0;
      while k < |cs|
        invariant 0 <= k <= |cs|
        invariant AllShaped(|raw|, cs[k..])
        invariant RouteAll(State(), raw, cs[k..], ids, clock) == RouteAll(old(State()), raw, cs, ids, clock)
      {
        assert cs[k..][1..] == cs[k + 1..];
        Route(raw, cs[k]);
        k := k + 1;
      }
      assert cs[k..] == [];
    }

    /** The state changes of `process` once the batch `raw` is clustered into `cs`. */
    method RouteBatch(raw: seq<RawProspect>, cs: seq<Cluster>)
      requires AllShaped(|raw|, cs)
      modifies this
      ensures State() == ProcessWith(old(State()), raw, cs, ids, clock)
    {
      stats := stats.(totalProcessed := |raw|);
      RouteClusters(raw, cs);
      CalculateStats();
    }

    /** The state changes of `process`: cluster the batch, route every cluster, update the rates. */
    method ProcessBatch(raw: seq<RawProspect>, ratio: (string, string) -> Ratio)
      modifies this
      ensures State() == ProcessSpec(old(State()), raw, ratio, ids, clock)
    {
      ghost var s0 := State();
      var clusters := BuildClusters(raw, ratio);
      assert State() == s0;
      ProcessSpecWith(s0, raw, ratio, ids, clock, clusters);
      RouteBatch(raw, clusters);
    }

    /** `process`: cluster the batch, route every cluster, update the rates and report. */
    method Process(raw: seq<RawProspect>, ratio: (string, string) -> Ratio) returns (out: Output)
      modifies this
      ensures State() == ProcessSpec(old(State()), raw, ratio, ids, clock)
      ensures OutputOf(out, State())
    {
      ProcessBatch(raw, ratio);
      out := GenerateOutput();
    }
  }
}

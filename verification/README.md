# Prospect deduplication core, in Dafny

This project models the entity-resolution core of the akwaya prospecting
pipeline, together with the small pure helpers the pipeline uses around it.

- **Matching** (`Matcher`): `ProspectMatcher` compares two raw prospect
  records with a fixed ladder of rules; the first rule that fires wins.
  - The rules, in order: the same LinkedIn profile, the same website domain,
    the same e-mail with similar names, similar names in the same place,
    similar names alone.
  - The answer is a level (`high`, `medium` or `low`) and a confidence.
- **Clustering** (`Clusters`): `_build_clusters` groups a batch greedily.
  - Each cluster is seeded by the first record not yet taken.
  - Later records join only by matching that seed: at `high` always, and at
    `medium` only while the cluster is not yet `high`.
- **Canonical records** (`Models`): `CanonicalProspect` and
  `MergedContactInfo`.
  - `merge_with` folds raw records into one canonical record.
  - Contact points are collected as sets, `about` texts are appended without
    duplicates, the highest confidence is kept, and one `SourceReference` is
    recorded per raw record.
- **The engine** (`Engine`, `EngineProps`): `DeduplicationEngine.process`
  clusters a batch and routes every cluster.
  - A singleton becomes an unmatched canonical record.
  - A `high` cluster becomes one merged record.
  - A `medium` cluster becomes a review flag.
  - The engine keeps running counters and rates and reports a summary.
- **Website augmentation** (`Augmentation`): `merge_prospects_info` fills
  missing `about`, e-mail and phone values in place. The values come from
  scraped website information, indexed by normalised URL.
- **URL normalisation** (`Normalizer`): `normalize_url` and `urls_equal`.
- **Scores**:
  - the contact-completeness points and the filter on them (`Points`);
  - the discovery confidence (`Confidence`);
  - the points-based prospect score and its breakdown (`Scorer`).
- **Small helpers**:
  - `parse_location` and `normalize_website` (`Loader`);
  - `format_phone_number` (`Phone`);
  - `chunk_list` (`Brainbox`).

Supporting modules:
- `Wrappers`: the `Option` and `Result` datatypes.
- `Text` and `Urls`: the Python `str` and `urllib.parse` operations the core
  calls, written out on `seq<char>`.
- `Seqs`: filtering and flattening.
- `Records`: the raw record, and Python truthiness as `Truthy`.

Stateful parts are classes:
- `DeduplicationEngine`, `CanonicalProspect` and `MergedContactInfo` in the
  engine and models;
- the prospect dicts `merge_prospects_info` mutates.

Each class is specified by a pure function of its state. For the engine, that
function is `State()`, an `EngineState` value.

The loops are methods with invariants, each proved against a specification
function:
- `_build_clusters`: `GrowCluster` and `BuildClustersWith` against
  `GreedyClusters`;
- the routing loop of `process`: `RouteClusters` against `RouteAll`;
- `merge_with`'s `about` loop: against `AppendNew`;
- `merge_prospects_info`;
- `filter_high_score_prospects`;
- the step-by-step accumulation of `calculate_points_score`.

The properties of the system are lemmas about those specification functions.

Units:
- Scores that the source computes as sums of decimal weights are integers:
  - hundredths in `Points` and `Confidence`;
  - tenths of a point in `Scorer`.
- The matcher's and the engine's confidences are exact `real`s.
- `uuid.uuid4()` and `datetime.utcnow()` are oracles `nat -> string` given to
  the engine; the engine state counts how many values were drawn from each.
- The name-similarity ratio of `difflib` is a parameter: any function into
  [0, 1].

Where the code and the design intent differ, the model follows the code:
- `normalize_domain` deletes every `www.` in the host, not only a leading one.
- `normalize_domain` keeps any port.
- `match_confidence` is symmetric only when the similarity ratio is.
  `SequenceMatcher.ratio()` is not guaranteed to be, so
  `MatchConfidenceSymmetric` assumes it.
- `normalize_domain` tests for `http://` and `https://` case-sensitively. A website
  written `HTTP://...` gets `https://` put in front, parses with the scheme as
  its host, and normalises to `http:`. Any two such records then match at
  (`high`, 0.95), whatever their real hosts (`UpperSchemeWebsitesMatch`).

## Model

| member | source | states |
|---|---|---|
| Matcher.NormalizeDomain | internal/domain/pipeline/matcher.py:21-33 | None exactly for a falsy input; otherwise the domain is lower-case |
| Matcher.NormalizeDomainSchemeless | internal/domain/pipeline/matcher.py:26-31 | a website without a scheme (a host with no `:`, `/`, `?` or `#`, then nothing or a path, query or fragment) gets `https://` in front, and its domain is the lower-cased host with every `www.` deleted |
| Matcher.NormalizeDomainUpperScheme | internal/domain/pipeline/matcher.py:26-31 | the scheme test is case-sensitive: `HTTP://...` or `Https://...` fails it, gets `https://` in front, and normalises to `http:` or `https:` whatever host follows |
| Matcher.UpperSchemeWebsitesMatch | internal/domain/pipeline/matcher.py:26-31 | two records whose websites both start with `HTTP://` have equal domains, so unless the LinkedIn rule fires they match at (`high`, 0.95), whatever their hosts |
| Matcher.NormalizeDomainOfHost | internal/domain/pipeline/matcher.py:26-31 | for `scheme://` + host + path, the host is lower-cased and a `www.` in the middle of the host is deleted too; path, query and fragment are dropped |
| Matcher.NormalizeDomainOfPlainHost | internal/domain/pipeline/matcher.py:26-31 | for a host without `w`, the domain is the lower-cased host, whatever path, query or fragment follows |
| Matcher.DeleteAllLower | internal/domain/pipeline/matcher.py:29-31 | deleting `www.` keeps a lower-case host lower-case |
| Matcher.NormalizeName | internal/domain/pipeline/matcher.py:36-41 | the normalised name is lower-case and single-spaced, with no leading or trailing blank |
| Matcher.SuffixMatchSpec | internal/domain/pipeline/matcher.py:39 | the suffix pattern matches at a position exactly when one of the legal suffixes occurs there as a whole word; the match is that word plus an optional `.` |
| Matcher.StripFromNoSuffix | internal/domain/pipeline/matcher.py:39 | a name with no legal-suffix word anywhere is left unchanged by the substitution |
| Matcher.StripFromLower | internal/domain/pipeline/matcher.py:39 | the case-insensitive substitution commutes with lower-casing |
| Matcher.NormalizeNameIgnoresCase | internal/domain/pipeline/matcher.py:36-41 | lower-casing the name first does not change its normal form |
| Matcher.NameSimilarityIgnoresCase | internal/domain/pipeline/matcher.py:44-48 | the name similarity (`NameSimilarity`, the ratio of the two normalised names) does not depend on the letter case of either name |
| Matcher.FirstMatchLeftmost | internal/domain/pipeline/matcher.py:56 | a left-to-right search finds nothing exactly when no position matches, and otherwise returns the leftmost match |
| Matcher.SearchProfileLeftmost | internal/domain/pipeline/matcher.py:56-57 | `re.search` for the LinkedIn profile pattern returns the id at the leftmost matching position, or None when no position matches |
| Matcher.ProfileAtContainsHost | internal/domain/pipeline/matcher.py:53-56 | wherever the pattern matches, the lower-cased URL contains `linkedin.com` |
| Matcher.ExtractLinkedInIdIsSearch | internal/domain/pipeline/matcher.py:51-57 | in `ExtractLinkedInId`, the guard on an empty URL or a missing `linkedin.com` never changes the result of the search |
| Matcher.ProfileAtOf | internal/domain/pipeline/matcher.py:56-57 | at a position holding `linkedin.com/in/` or `linkedin.com/company/` (host in any case), the match yields the id up to the next `/` or `?` |
| Matcher.ExtractLinkedInIdOf | internal/domain/pipeline/matcher.py:51-57 | a URL `prefix + linkedin.com/in/ID` or `/company/ID`, followed by nothing, `/` or `?`, yields `ID` |
| Matcher.MatchConfidence | internal/domain/pipeline/matcher.py:60-103 | the level is `high` exactly when the LinkedIn ids agree, or the domains agree, or the e-mails agree case-insensitively with name similarity at least 0.75. Otherwise the level is `medium` exactly when the similarity is at least 0.90, and `low` exactly when it is below. The confidence is in [0, 1] |
| Matcher.MatchConfidenceScores | internal/domain/pipeline/matcher.py:67-103 | a `high` confidence is 1.0, 0.95 or 0.90. It is 1.0 exactly when the LinkedIn ids agree. The result is (`high`, 0.95) exactly when the domains agree and the LinkedIn rule does not fire. It is (`high`, 0.90) exactly when neither of those rules fires and the e-mail rule does. A `medium` confidence is 0.80 exactly with the same location and 0.75 exactly without. A `low` confidence is the name similarity, below 0.90 |
| Matcher.LinkedInDecides | internal/domain/pipeline/matcher.py:67-71 | equal LinkedIn ids give (`high`, 1.0) whatever else the records hold |
| Matcher.MatchConfidenceSymmetric | internal/domain/pipeline/matcher.py:60-103 | with a symmetric similarity ratio, swapping the two records does not change the result |
| Clusters.GrowCluster | internal/domain/pipeline/engine.py:78-101 | the inner loop yields the cluster and the processed set of the specification `Scan`, from the lone seed at level `none` and confidence 0.0 |
| Clusters.BuildClustersWith | internal/domain/pipeline/engine.py:69-105 | the outer loop returns exactly `GreedyClusters` |
| Clusters.BuildClusters | internal/domain/pipeline/engine.py:69-105 | `_build_clusters` with `match_confidence` as the pairing returns `GreedyClusters` |
| Clusters.ScanKeepsState | internal/domain/pipeline/engine.py:86-101 | the inner loop keeps the cluster shaped: seed first, members increasing, only available positions. It also keeps the joining rules. It decides every later position |
| Clusters.AcceptKeepsState | internal/domain/pipeline/engine.py:92-101 | accepting a `high` match, or a `medium` one in a non-`high` cluster, keeps the joining rules, and the confidence becomes the maximum |
| Clusters.RejectKeepsState | internal/domain/pipeline/engine.py:87-101 | skipping a processed or rejected candidate keeps the joining rules |
| Clusters.ConsiderKeepsState | internal/domain/pipeline/engine.py:87-101 | one iteration of the inner loop keeps the joining rules |
| Clusters.SeedCluster | internal/domain/pipeline/engine.py:78-103 | the cluster of a seed obeys the joining rules and holds exactly the seed and the positions it took |
| Clusters.GreedyClustersPartition | internal/domain/pipeline/engine.py:71-105 | every position of the batch is in exactly one cluster. Each cluster lists its seed first and its members in input order, and the seeds increase |
| Clusters.GreedyClustersRules | internal/domain/pipeline/engine.py:74-103 | each cluster is seeded at the first position no earlier cluster holds. Members joined the seed at `high`, or at `medium` before any `high` member. Every available non-member was rejected. The level is `high` exactly with a `high` member, and the confidence is the largest accepted confidence |
| Clusters.RulesLevel | internal/domain/pipeline/engine.py:78-101 | a cluster obeying the rules has level `none` exactly when it is a singleton, and is never `low` |
| Clusters.GreedyClustersLevels | internal/domain/pipeline/engine.py:44-55 | every cluster is a singleton at `none` or has several members at `high` or `medium`, so the last routing branch is never taken |
| Clusters.GreedyClustersSize | internal/domain/pipeline/engine.py:71-105 | the cluster sizes add up to the batch size |
| Clusters.GreedyClustersPermutation | internal/domain/pipeline/engine.py:71-105 | the members of all clusters, taken together, are a permutation of the batch positions: each position is in exactly one cluster, once |
| Clusters.MaxConfidenceBounds | internal/domain/pipeline/engine.py:95-100 | the cluster confidence, a maximum of match confidences, stays in [0, 1] |
| Clusters.PairMatchRange | internal/domain/pipeline/engine.py:90 | the matcher never answers `none` on two records of the batch, and its confidence is in [0, 1] |
| Clusters.MediumThenHigh | internal/domain/pipeline/engine.py:92-101 | a `high` cluster can contain a member accepted at `medium` before its first `high` match |
| Clusters.HighThenMedium | internal/domain/pipeline/engine.py:97-101 | a `medium` match after a `high` one is rejected and left for a later cluster |
| Models.AppendNewPrefix | internal/utils/models.py:66-74 | appending `about` texts keeps the existing list as a prefix |
| Models.AppendNewElements | internal/utils/models.py:66-74 | after appending, a text is in `about` exactly when it was there before or is a non-empty new text |
| Models.AppendNewNoDuplicates | internal/utils/models.py:72-74 | a duplicate-free `about` stays duplicate-free |
| Models.AppendNewPresent | internal/utils/models.py:72-74 | texts already present add nothing |
| Models.AppendNewIdempotent | internal/utils/models.py:66-74 | appending the same texts twice is appending them once |
| Models.MergeViewSpec | internal/utils/models.py:55-93 | `merge_with` keeps the id, name, location and creation time. It adds exactly the truthy e-mail, phone and website. The confidence becomes the maximum of old and new. It appends exactly one source reference, copied from the raw record. It replaces `business_context` only when that is falsy and the raw one truthy. `about` stays duplicate-free and keeps its prefix |
| Models.MergeViewTwice | internal/utils/models.py:57-93 | merging the same record twice changes nothing beyond a second source reference: the contact sets keep their size |
| Models.MergeAllSources | internal/utils/models.py:83-89 | folding a list of records appends one source per record, in call order |
| Models.MergeAllKeeps | internal/utils/models.py:55-93 | folding keeps id, name and location. The confidence is at least every folded record's. A truthy `business_context` is kept |
| Models.MergeAllBusinessContext | internal/utils/models.py:92-93 | starting from a falsy `business_context`, the first truthy one folded in wins |
| Models.ListOf | internal/utils/models.py:25-30 | `list(set)` lists exactly the set's elements, each once |
| Models.MergedContactInfo.constructor | internal/utils/models.py:13-17 | a new contact record has three empty sets |
| Models.MergedContactInfo.Merge | internal/utils/models.py:19-23 | `merge` is a per-field set union |
| Models.MergedContactInfo.ToDict | internal/utils/models.py:25-30 | each list of the dict lists exactly its set, without duplicates |
| Models.CanonicalProspect.constructor | internal/utils/models.py:43-53 | the fields are the given ones and the source list is empty |
| Models.CanonicalProspect.MergeWith | internal/utils/models.py:55-93 | the new state is `MergeView` of the old one, whose properties are `MergeViewSpec` |
| Models.CanonicalProspect.ToDict | internal/utils/models.py:95-107 | the dict reports the record's fields, `about` as a list and `source_count == len(sources)` |
| Engine.UnmatchedViewSpec | internal/domain/pipeline/engine.py:154-191 | an unmatched record reuses the raw `prospect_id`, has exactly one source reference, and holds exactly the raw record's truthy e-mail, phone and website |
| Engine.MergedViewSpec | internal/domain/pipeline/engine.py:107-135 | a merged record has the fresh id, the first member's name and location, and one source per member in member order. A truthy `business_context` of the first member is kept |
| Engine.GreedyClustersShaped | internal/domain/pipeline/engine.py:69-105 | every cluster `_build_clusters` returns is shaped, so routing can use it |
| Engine.ViewsOfConcat | internal/domain/pipeline/engine.py:212 | the records of `auto_merged + unmatched` are those of each list in turn |
| Engine.ToDicts | internal/domain/pipeline/engine.py:212-215 | `[p.to_dict() for p in ps]` reports each record, in order |
| Engine.NewUnmatched | internal/domain/pipeline/engine.py:156-188 | builds a fresh canonical record whose state is the unmatched record of the raw one |
| Engine.NewMerged | internal/domain/pipeline/engine.py:109-131 | builds a fresh canonical record whose state is the merge of all members into the first |
| Engine.DeduplicationEngine.constructor | internal/domain/pipeline/engine.py:19-30 | a new engine has empty lists and all-zero statistics |
| Engine.DeduplicationEngine.CreateUnmatchedProspect | internal/domain/pipeline/engine.py:154-191 | appends the unmatched record, counts it, and takes one clock reading |
| Engine.DeduplicationEngine.CreateMergedProspect | internal/domain/pipeline/engine.py:107-135 | appends the merged record, counts it, and draws one id and one clock reading |
| Engine.DeduplicationEngine.FlagForReview | internal/domain/pipeline/engine.py:142-151 | appends a flag with a fresh id, the cluster's confidence, its records untouched and the fixed reason and action, and counts it |
| Engine.DeduplicationEngine.CalculateStats | internal/domain/pipeline/engine.py:193-198 | sets the rates from the counters when `total_processed > 0`, and changes nothing otherwise |
| Engine.DeduplicationEngine.GenerateOutput | internal/domain/pipeline/engine.py:200-216 | the summary reports `canonical_prospects_created = len(auto_merged) + len(unmatched)`. The records for enrichment are `auto_merged` followed by `unmatched` |
| Engine.DeduplicationEngine.CreateEachUnmatched | internal/domain/pipeline/engine.py:53-55 | adds one unmatched record per member, in order |
| Engine.DeduplicationEngine.Route | internal/domain/pipeline/engine.py:44-55 | a singleton goes to `unmatched`, a `high` cluster to one merged record, a `medium` cluster to one flag, and any other cluster member by member to `unmatched` |
| Engine.DeduplicationEngine.RouteClusters | internal/domain/pipeline/engine.py:44-55 | routes every cluster, in order |
| Engine.DeduplicationEngine.RouteBatch | internal/domain/pipeline/engine.py:38-58 | overwrites `total_processed`, routes the clusters and computes the rates |
| Engine.DeduplicationEngine.ProcessBatch | internal/domain/pipeline/engine.py:32-58 | the new state is `ProcessSpec` of the old state and the batch |
| Engine.DeduplicationEngine.Process | internal/domain/pipeline/engine.py:32-67 | the new state is `ProcessSpec` of the old state and the batch, and the output reports that new state |
| EngineProps.ExtendsTransitive | internal/domain/pipeline/engine.py:44-55 | keeping the lists as prefixes is transitive |
| EngineProps.FreshConsistent | internal/domain/pipeline/engine.py:19-30 | on a new engine the counters equal the list lengths |
| EngineProps.AddEachConsistent | internal/domain/pipeline/engine.py:53-55 | adding unmatched records keeps counters, ids and clock readings in step with the lists, and only appends |
| EngineProps.RouteClusterConsistent | internal/domain/pipeline/engine.py:44-55 | routing one cluster keeps counters, ids and clock readings in step with the lists, only appends, and leaves `total_processed` alone |
| EngineProps.RouteAllConsistent | internal/domain/pipeline/engine.py:44-55 | the same for the whole routing loop |
| EngineProps.ProcessConsistent | internal/domain/pipeline/engine.py:32-58 | `process` keeps counters, ids and clock readings in step with the lists. It only appends to the lists, and `total_processed` becomes the batch size |
| EngineProps.SourceCountAppend | internal/domain/pipeline/engine.py:130-135 | the raw records accounted for by canonical records add up across an append |
| EngineProps.FlagCountAppend | internal/domain/pipeline/engine.py:144-150 | the raw records held by flags add up across an append |
| EngineProps.AddUnmatchedAccounted | internal/domain/pipeline/engine.py:154-191 | an unmatched record accounts for exactly one raw record |
| EngineProps.AddEachAccounted | internal/domain/pipeline/engine.py:53-55 | member-by-member routing accounts for each member once |
| EngineProps.RouteClusterAccounted | internal/domain/pipeline/engine.py:44-55 | routing a cluster accounts for exactly its members |
| EngineProps.RouteAllAccounted | internal/domain/pipeline/engine.py:44-55 | routing the clusters accounts for exactly their total size |
| EngineProps.ProcessAccounted | internal/domain/pipeline/engine.py:32-58 | the number of raw records the state accounts for grows by the batch size. A merged or unmatched record counts its sources; a flag counts its records |
| EngineProps.RouteClusterBag | internal/domain/pipeline/engine.py:44-56 | routing one cluster adds exactly the source references of the records at its positions, whichever branch it takes |
| EngineProps.RouteAllBag | internal/domain/pipeline/engine.py:43-56 | the routing loop adds exactly the source references of the records at the clusters' positions |
| EngineProps.RefsAtPermutation | internal/domain/pipeline/engine.py:43-56 | positions listed in another order name the same records, counted with multiplicity |
| EngineProps.ProcessPlacesEachRecord | internal/domain/pipeline/engine.py:32-58 | every raw record of the batch ends up in exactly one place. The multiset of source references held by merged records, flags and unmatched records grows by exactly the batch's references |
| EngineProps.AddEachSized | internal/domain/pipeline/engine.py:53-55 | unmatched records hold one source each |
| EngineProps.RouteClusterSized | internal/domain/pipeline/engine.py:44-55 | merged records and flags hold at least two raw records, unmatched records exactly one |
| EngineProps.RouteAllSized | internal/domain/pipeline/engine.py:44-55 | the same for the whole routing loop |
| EngineProps.ProcessSized | internal/domain/pipeline/engine.py:32-58 | the same for `process` |
| EngineProps.SourceCountAtLeast | internal/domain/pipeline/engine.py:130-131 | records of at least k sources account for at least k raw records each |
| EngineProps.FlagCountAtLeast | internal/domain/pipeline/engine.py:144-147 | flags of at least k records account for at least k raw records each |
| EngineProps.RatesBound | internal/domain/pipeline/engine.py:196-198 | when every merge and flag consumes two raw records, both rates are non-negative and add up to at most 50 percent |
| EngineProps.ProcessRates | internal/domain/pipeline/engine.py:193-198 | for a non-empty batch, the rates are the counters over the batch size times 100. An empty batch leaves the old rates |
| EngineProps.RouteAllConsistentRates | internal/domain/pipeline/engine.py:44-55 | routing changes neither `total_processed` nor the rates |
| EngineProps.AddEachKeepsRates | internal/domain/pipeline/engine.py:53-55 | adding unmatched records changes neither `total_processed` nor the rates |
| EngineProps.FreshUnused | internal/domain/pipeline/engine.py:19-30 | a new engine is unused |
| EngineProps.UnusedProcess | internal/domain/pipeline/engine.py:32-58 | on an unused engine, the counters follow the lists and `total_processed` is the batch size. The source references the state holds are exactly the batch's, as a multiset |
| EngineProps.UnusedRates | internal/domain/pipeline/engine.py:193-198 | on an unused engine, the merge and flag rates are non-negative and add up to at most 50 percent |
| EngineProps.EmptyBatch | internal/domain/pipeline/engine.py:193-198 | an empty batch only sets `total_processed` to 0: no division by zero, lists and rates unchanged |
| EngineProps.SingleRecordBatch | internal/domain/pipeline/engine.py:32-58 | a one-record batch adds one unmatched record. On a reused engine the merge rate becomes the accumulated merge count over 1, times 100 |
| Augmentation.Prospect.constructor | internal/domain/pipeline/helper.py:19-39 | a prospect holds the given about, e-mail, phone and website |
| Augmentation.IndexKeys | internal/domain/pipeline/helper.py:12-16 | a key is in the index exactly when some item with a truthy `url` normalises to it |
| Augmentation.IndexLastWins | internal/domain/pipeline/helper.py:12-16 | of the items sharing a normalised URL, the index keeps the last |
| Augmentation.Fill | internal/domain/pipeline/helper.py:32-39 | a truthy current value is never overwritten. A falsy one takes the item's value when the item has the key. A missing key changes nothing |
| Augmentation.FillIdempotent | internal/domain/pipeline/helper.py:32-39 | filling twice from the same item is filling once |
| Augmentation.Lookup | internal/domain/pipeline/helper.py:19-26 | a prospect finds an item exactly when its website is truthy and its normal form is a key, and then it finds that key's item |
| Augmentation.KeptProspects | internal/domain/pipeline/helper.py:18-40 | a prospect is returned exactly when it has a truthy website whose normal form is indexed. The returned prospects keep the input order |
| Augmentation.AugmentProspect | internal/domain/pipeline/helper.py:19-40 | one iteration fills the indexed prospect's falsy `about`, e-mail and phone, and reports whether the prospect is kept |
| Augmentation.MergeProspectsInfoBy | internal/domain/pipeline/helper.py:10-42 | returns the kept prospects in order. Every prospect is filled in place from its item when indexed, and left as it was otherwise. Only `about`, e-mail and phone are written |
| Augmentation.MergeProspectsInfo | internal/domain/pipeline/helper.py:5-42 | the same, with the index keyed by `normalize_url` |
| Normalizer.PairLessTotal | internal/utils/normalizer.py:44 | `sorted` compares query pairs with a total order |
| Normalizer.PairLessAsymmetric | internal/utils/normalizer.py:44 | that order is strict |
| Normalizer.PairLessTransitive | internal/utils/normalizer.py:44 | that order is transitive |
| Normalizer.Insert | internal/utils/normalizer.py:44 | inserting into a sorted list keeps it sorted and adds exactly the pair |
| Normalizer.SortPairs | internal/utils/normalizer.py:44 | `sorted` returns a sorted permutation of the pairs |
| Normalizer.SortedUnique | internal/utils/normalizer.py:44 | two sorted permutations of the same pairs are equal |
| Normalizer.ParseQslEmpty | internal/utils/normalizer.py:43-44 | an empty query has no pairs |
| Normalizer.QueryOrderIndependent | internal/utils/normalizer.py:43-44 | queries with the same pairs in any order normalise to the same string |
| Normalizer.ForceHttps | internal/utils/normalizer.py:29-30 | only `http` is rewritten, only to `https`, and only when forced |
| Normalizer.DropDefaultPort | internal/utils/normalizer.py:33-36 | `:80` is removed exactly for `http`, `:443` exactly for `https`, and nothing else changes |
| Normalizer.DropWww | internal/utils/normalizer.py:39-40 | one leading `www.` is removed exactly when asked for |
| Normalizer.NormalizedShape | internal/utils/normalizer.py:20-46 | in the parts `NormalizeParsed` builds for `normalize_url`, scheme and host are lower-case, the path has no trailing `/`, params and fragment are empty, and a forced result is never `http` |
| Normalizer.ForcedHttpsKeepsPort80 | internal/utils/normalizer.py:29-36 | with `force_https`, `http://h:80` becomes `https` and keeps `:80`, because the port check follows the upgrade |
| Normalizer.Port80NotHttps | internal/utils/normalizer.py:33-36 | `:80` is never removed under `https` |
| Normalizer.WwwKeepsPort80 | internal/utils/normalizer.py:39-40 | removing `www.` keeps a trailing `:80` |
| Normalizer.HttpPort80Dropped | internal/utils/normalizer.py:33-34 | without forcing, `http://h:80` loses its `:80` |
| Normalizer.UrlQueryOrderIndependent | internal/utils/normalizer.py:20-46 | URLs differing only in the order of their query pairs normalise equally |
| Normalizer.UrlsEqualEquivalence | internal/utils/normalizer.py:49-50 | `urls_equal` (`UrlsEqual`, equality of the `NormalizeUrl` results) is reflexive, symmetric and transitive |
| Points.CalculatePoints | internal/domain/common/scoring.py:4-29 | no truthy contact channel scores 0. With one, the score is at least 0.2 and always at most 1.0 |
| Points.PointsMonotone | internal/domain/common/scoring.py:4-29 | an extra truthy field never lowers the score |
| Points.PointsComplete | internal/domain/common/scoring.py:14-29 | all six fields truthy score exactly 1.0 |
| Points.FilterHighScoreProspects | internal/domain/common/scoring.py:33-39 | the loop returns the filter of the prospects scoring at least the threshold, and every returned prospect reaches it |
| Points.HighScoreProspects | internal/domain/common/scoring.py:33-39 | a prospect is returned exactly when it is in the input and reaches the threshold, in input order |
| Points.DefaultThresholdCases | internal/domain/common/scoring.py:5-39 | a truthy website always passes the default threshold 0.3, and no contact channel never does |
| Confidence.CalculateDiscoveryConfidence | internal/utils/scoring.py:1-32 | the confidence is at most 1.0 |
| Confidence.ClampNeverBinds | internal/utils/scoring.py:14-32 | the weights sum to 1.0, so the `min` clamp never changes the score |
| Confidence.ConfidenceExtremes | internal/utils/scoring.py:14-32 | no attribute gives 0.0 and all five give 1.0 |
| Confidence.ConfidenceMonotone | internal/utils/scoring.py:14-29 | an extra truthy attribute never lowers the confidence |
| Scorer.FormatLocation | internal/domain/agents/scorer.py:23-37 | never empty. A falsy location gives `N/A`. A string gives itself. A dict with a full address gives that address. Any other truthy value gives its `str()` |
| Scorer.FormatLocationParts | internal/domain/agents/scorer.py:27-36 | without a full address, a dict gives `city, country` of the parts present, or `N/A` when neither is |
| Scorer.CountFoundIgnoresCase | internal/domain/agents/scorer.py:175 | indicators are counted case-insensitively |
| Scorer.LocationPoints | internal/domain/agents/scorer.py:146-155 | 10 points exactly for a dict with a full address or city, a non-empty string, or any other truthy value; none otherwise |
| Scorer.PlatformPoints | internal/domain/agents/scorer.py:158-166 | at most 20 points. None exactly without platforms, the full 20 exactly from two platforms on, and 15 for one |
| Scorer.PlatformPointsMonotone | internal/domain/agents/scorer.py:158-166 | more platforms never score fewer points |
| Scorer.QualityPoints | internal/domain/agents/scorer.py:177-188 | 20, 15, 10 or 5 points for three or more, two, one or no indicators; 20 and 5 exactly in those cases |
| Scorer.AboutPoints | internal/domain/agents/scorer.py:169-188 | nothing exactly for a falsy about; between 5 and 20 points otherwise |
| Scorer.AboutPointsMonotone | internal/domain/agents/scorer.py:169-188 | adding text to the about section never lowers its points: an indicator found stays found |
| Scorer.AboutPointsIgnoresCase | internal/domain/agents/scorer.py:175 | the about points do not depend on the letter case of the text |
| Scorer.TotalAppend | internal/domain/agents/scorer.py:190-201 | the total of a breakdown adds up across concatenation |
| Scorer.ContactEntries | internal/domain/agents/scorer.py:135-143 | the contact entries total the contact points |
| Scorer.LocationEntries | internal/domain/agents/scorer.py:135-155 | the entries so far total the contact and location points |
| Scorer.PlatformEntries | internal/domain/agents/scorer.py:135-166 | the entries so far also total the platform points |
| Scorer.AboutEntries | internal/domain/agents/scorer.py:135-188 | the entries so far also total the about points |
| Scorer.ExpectedBreakdown | internal/domain/agents/scorer.py:130-193 | the full breakdown totals the raw points, discovery confidence times 10 included |
| Scorer.AddPoints | internal/domain/agents/scorer.py:135-193 | one step adds the entry when present and keeps the points equal to the breakdown total |
| Scorer.CalculatePointsScore | internal/domain/agents/scorer.py:116-203 | the result keeps the id and holds the expected breakdown in insertion order. The raw points are its total. The score is the points over 100, capped at 1.0 |
| Scorer.CapNeverBinds | internal/domain/agents/scorer.py:190-196 | with a discovery confidence at most 1, the raw points lie in [0, 100], so the cap never binds |
| Scorer.FullMarks | internal/domain/agents/scorer.py:135-193 | full contact, location, two platforms, three indicators and confidence 1 give exactly 100 points |
| Loader.ParseLocation | internal/domain/pipeline/loader.py:36-60 | an empty input gives `{}`. Otherwise `full_address` is the input exactly and `city` is present |
| Loader.ParseLocationHasCountry | internal/domain/pipeline/loader.py:49-58 | a non-empty input has a `country` exactly when it contains a comma |
| Loader.ParseLocationCity | internal/domain/pipeline/loader.py:49-56 | `city` is the stripped text before the first comma |
| Loader.ParseLocationLast | internal/domain/pipeline/loader.py:57-58 | with two or more parts, `country` is the last stripped part |
| Loader.ParseLocationCountry | internal/domain/pipeline/loader.py:49-58 | with a comma, `country` is the stripped text after the last comma |
| Loader.SplitOnFirst | internal/domain/pipeline/loader.py:49 | the first part of `split(',')` is the text before the first comma |
| Loader.SplitOnLast | internal/domain/pipeline/loader.py:49 | the last part of `split(',')` is the text after the last comma |
| Loader.WithScheme | internal/domain/pipeline/loader.py:75-76 | the result starts with `http://` or `https://` and ends with the input |
| Loader.NormalizeWebsite | internal/domain/pipeline/loader.py:62-81 | an empty input gives "". The result never ends with `/` |
| Loader.NormalizeWebsiteShape | internal/domain/pipeline/loader.py:75-79 | for a non-empty input, the result is the schemed URL less trailing `/` characters only, and starts with `http:` or `https:` |
| Phone.FormatPhoneNumber | internal/domain/calling/retell_service.py:127-147 | "" for an empty input. Otherwise the result starts with `+`: it is the cleaned number itself when that starts with `+`, and `+` followed by the cleaned number when it does not |
| Phone.FormatKeepsDialable | internal/domain/calling/retell_service.py:141-147 | the result holds only digits and `+`. The cleaned number keeps the input order and holds exactly the input's digits and `+` characters |
| Phone.FormatIdempotent | internal/domain/calling/retell_service.py:137-147 | formatting a formatted number changes nothing |
| Brainbox.ChunkList | internal/domain/brainbox/engine.py:34-35 | a zero size is the error `range` raises. A negative size gives no chunks. A positive size gives the consecutive chunks |
| Brainbox.ChunksFlatten | internal/domain/brainbox/engine.py:35 | concatenating the chunks gives back the input |
| Brainbox.ChunkAt | internal/domain/brainbox/engine.py:35 | chunk k is the slice starting at `k * size`, of at most `size` items |
| Brainbox.ChunkSizes | internal/domain/brainbox/engine.py:35 | there are no chunks exactly for an empty input. Every chunk but the last has `size` items, and the last has 1 to `size` |
| Brainbox.ChunkCount | internal/domain/brainbox/engine.py:35 | the number of chunks n satisfies `(n - 1) * size < len(items) <= n * size`, i.e. it is ceil(len/size) |
| Brainbox.ChunkListFlatten | internal/domain/brainbox/engine.py:34-35 | for a positive size, `chunk_list` succeeds and its chunks concatenate to the input |

## Left out

- Logging calls in the engine and elsewhere: no effect on state or results.
- `SequenceMatcher(None, a, b).ratio()`: a parameter `ratio` into [0, 1]. Its actual matching-blocks algorithm is not modelled.
- Matcher.MatchConfidenceSymmetric: assumes a symmetric ratio, because difflib does not promise one.
- `urlparse`, `urlunparse`, `parse_qsl` and `urlencode` are written out component by component. Left out of that model:
  - percent-encoding and decoding of query pairs;
  - the removal of tabs and newlines;
  - IPv6 and port validation;
  - the library's exceptions.
  
  As a result, the `except Exception` branch of `normalize_domain` (matcher.py:32-33) is not modelled.
- Unicode: case mapping is ASCII. `isdigit` in `format_phone_number` accepts ASCII digits only. Python's `str.isspace` is modelled over its Unicode whitespace set.
- Matcher.NormalizeName: `\b` in the legal-suffix pattern is modelled with an ASCII `\w` (letters, digits, `_`). Python's `\w` on a `str` pattern also matches non-ASCII letters and digits. So a legal-form word next to one, as in `Coé`, is removed by the model but kept by Python.
- uuid4 and utcnow: oracles `ids(k)` and `clock(k)`, the k-th value drawn. The model does not prove that a merged record's fresh id differs from every raw id; that needs uniqueness of uuid4, which an oracle does not give.
- Engine.DeduplicationEngine.GenerateOutput: the summary carries the exact rates; `round(·, 2)` at engine.py:209-210 is left out (floating point).
- Engine.DeduplicationEngine.GenerateOutput: computes each canonical record's dict once for both `prospects_for_enrichment` and the detail lists. `to_dict` is pure, so the reported values are the same.
- Aliasing between the base record's `about` list and the merged record (engine.py:117): pydantic copies list fields when the model is built, so the canonical record's `about` is a value here.
- The dict `merge_prospects_info` writes to is the prospect's own `contact` dict. The model keeps the prospect's e-mail and phone as fields of the prospect. A `contact` dict shared between two prospects is not modelled.
- internal/utils/models.py is commented out in the repository, while the engine imports its classes. The model follows that commented-out text as the intended behaviour.
- `to_dict` of `MergedContactInfo`: `list(set)` has an unspecified order. `Models.ListOf` promises only the elements, each once.
- `about` is modelled on its declared types only: missing, a string, or a list of strings. `merge_with` (models.py:66-73) would iterate any other truthy value, such as a tuple, and append its texts; that is not modelled.
- A non-string `location` in the matcher: its `.lower()` would raise, and that path is not modelled.
- Points.CalculatePoints: scores are exact hundredths. Python's float sums miss by one bit for some combinations: three contact channels with one more field sum to 0.7999999999999999, five fields to 0.8999999999999999, all six to 0.9999999999999999. A caller-supplied threshold of exactly 0.8, 0.9 or 1.0 can therefore decide differently; the default 0.3 and every other two-decimal threshold decide the same.
- Scorer.CalculatePointsScore: points are exact tenths. The source's `round(normalized_score, 3)` and `round(points, 2)` are the same numbers in those units, up to float error, which is left out.
- Scorer.CalculatePointsScore: a discovery confidence is taken in hundredths. Non-numeric values, and confidences with more than two decimals, are not modelled.
- Fields of the `Prospect` and `WebsiteInfo` dicts that the modelled functions never read are not part of the records.
- `format_phone_number` is called at retell_service.py:179-191 with `prospect.get("phones")`. The call site is not part of this model; the function is modelled on a string.
- Brainbox.ChunkList: a negative size gives `[]` as Python's `range` does; the model states this rather than requiring a positive size. Only a zero size is an error.
- Loader.NormalizeWebsite: is not idempotent (`http://` normalises to `http:`). The model states the shape of the result instead of idempotence.
- The rest of the repository is not part of this model:
  - persistence and file I/O (`save_*` and `load_*`, the database layer);
  - scraping, search and crawling;
  - LLM calls (`calculate_llm_score` and the agents);
  - the Retell telephony calls;
  - the web server and configuration.

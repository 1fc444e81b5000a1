/**
 * The contact-completeness score of a prospect and the filter on it,
 * internal/domain/common/scoring.py. Scores are integer hundredths: 0.2 is 20.
 */
module Points {
  import opened Wrappers
  import opened Records
  import opened Seqs

  /**
   * The fields of a `Prospect` dict (internal/domain/common/dto.py) that the
   * score reads; a missing `contact` or `location` reads as missing fields.
   */
  datatype Prospect = Prospect(
    email: Option<string>,
    phone: Option<string>,
    website: Option<string>,
    country: Option<string>,
    businessContext: Option<string>,
    about: Option<string>)

  /** Lines 7-10: some contact channel is truthy. */
  predicate HasContact(p: Prospect) {
    Truthy(p.email) || Truthy(p.phone) || Truthy(p.website)
  }

  /**
   * `calculate_points(prospect)` (lines 4-29): 0 without a contact channel,
   * otherwise email 20, phone 20, website 30, country 10, business context
   * 10 and about 10 for each truthy field.
   */
  function CalculatePoints(p: Prospect): (score: nat)
    ensures !HasContact(p) ==> score == 0
    ensures HasContact(p) ==> 20 <= score
    ensures score <= 100
  {
    if !HasContact(p) then 0
    else
      WeightIf(p.email, 20) + WeightIf(p.phone, 20) + WeightIf(p.website, 30)
      + WeightIf(p.country, 10) + WeightIf(p.businessContext, 10) + WeightIf(p.about, 10)
  }

  /** Every truthy field of `p` is truthy in `q`. */
  predicate FieldsWithin(p: Prospect, q: Prospect) {
    && (Truthy(p.email) ==> Truthy(q.email))
    && (Truthy(p.phone) ==> Truthy(q.phone))
    && (Truthy(p.website) ==> Truthy(q.website))
    && (Truthy(p.country) ==> Truthy(q.country))
    && (Truthy(p.businessContext) ==> Truthy(q.businessContext))
    && (Truthy(p.about) ==> Truthy(q.about))
  }

  /** Adding fields never lowers the score. */
  lemma {:induction false} PointsMonotone(p: Prospect, q: Prospect)
    requires FieldsWithin(p, q)
    ensures CalculatePoints(p) <= CalculatePoints(q)
  {
  }

  /** A prospect with every field scores exactly 100. */
  lemma {:induction false} PointsComplete(p: Prospect)
    requires Truthy(p.email) && Truthy(p.phone) && Truthy(p.website)
    requires Truthy(p.country) && Truthy(p.businessContext) && Truthy(p.about)
    ensures CalculatePoints(p) == 100
  {
  }

  /** The default `threshold` of `filter_high_score_prospects`, 0.3. */
  const DefaultThreshold: int := 30

  function ScoresAtLeast(threshold: int): Prospect -> bool
  {
    p => CalculatePoints(p) >= threshold
  }

  /**
   * `filter_high_score_prospects(prospects, threshold)` (lines 33-39): the
   * prospects scoring at least `threshold`, in input order.
   */
  method FilterHighScoreProspects(prospects: seq<Prospect>, threshold: int) returns (filtered: seq<Prospect>)
    ensures filtered == Filter(prospects, ScoresAtLeast(threshold))
    ensures forall k :: 0 <= k < |filtered| ==> CalculatePoints(filtered[k]) >= threshold
  {
    filtered := [];
    var i := 0;
    while i < |prospects|
      invariant 0 <= i <= |prospects|
      invariant filtered == Filter(prospects[..i], ScoresAtLeast(threshold))
      invariant forall k :: 0 <= k < |filtered| ==> CalculatePoints(filtered[k]) >= threshold
    {
      var prospect := prospects[i];
      var score := CalculatePoints(prospect);
      if score >= threshold {
        filtered := filtered + [prospect];
      }
      FilterAppend(prospects[..i], [prospect], ScoresAtLeast(threshold));
      assert prospects[..i + 1] == prospects[..i] + [prospect];
      i := i + 1;
    }
    assert prospects[..i] == prospects;
  }

  /** A prospect is kept exactly when it scores at least the threshold; the order is the input's. */
  lemma {:induction false} HighScoreProspects(prospects: seq<Prospect>, threshold: int, p: Prospect)
    ensures p in Filter(prospects, ScoresAtLeast(threshold)) <==> p in prospects && CalculatePoints(p) >= threshold
    ensures IsSubsequence(Filter(prospects, ScoresAtLeast(threshold)), prospects)
  {
    FilterMembers(prospects, ScoresAtLeast(threshold), p);
    FilterIsSubsequence(prospects, ScoresAtLeast(threshold));
  }

  /** With the default threshold, a prospect with a website alone passes, and one without any contact never does. */
  lemma {:induction false} DefaultThresholdCases(p: Prospect)
    ensures Truthy(p.website) ==> CalculatePoints(p) >= DefaultThreshold
    ensures !HasContact(p) ==> CalculatePoints(p) < DefaultThreshold
  {
  }
}

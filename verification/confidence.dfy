/**
 * `calculate_discovery_confidence` (internal/utils/scoring.py) in integer
 * hundredths: the result is rounded to two decimals, so 0.15 is 15.
 */
module Confidence {
  import opened Wrappers
  import opened Records

  /** Lines 14-29: the sum of the weights of the truthy attributes, before the clamp. */
  function RawConfidence(email: Option<string>, phone: Option<string>, website: Option<string>,
                         location: Option<string>, businessType: Option<string>): nat
  {
    WeightIf(email, 30) + WeightIf(phone, 20) + WeightIf(website, 20)
    + WeightIf(location, 15) + WeightIf(businessType, 15)
  }

  /** `calculate_discovery_confidence(...)` (lines 1-32): the raw sum clamped at 1.0. */
  function CalculateDiscoveryConfidence(email: Option<string>, phone: Option<string>, website: Option<string>,
                                        location: Option<string>, businessType: Option<string>): (score: nat)
    ensures score <= 100
  {
    var raw := RawConfidence(email, phone, website, location, businessType);
    if raw < 100 then raw else 100
  }

  /** The weights sum to 1.0, so the clamp at line 32 never changes the score. */
  lemma {:induction false} ClampNeverBinds(email: Option<string>, phone: Option<string>, website: Option<string>,
                        location: Option<string>, businessType: Option<string>)
    ensures RawConfidence(email, phone, website, location, businessType) <= 100
    ensures CalculateDiscoveryConfidence(email, phone, website, location, businessType)
         == RawConfidence(email, phone, website, location, businessType)
  {
  }

  /** No attribute gives 0.0 and every attribute gives 1.0. */
  lemma {:induction false} ConfidenceExtremes(email: Option<string>, phone: Option<string>, website: Option<string>,
                           location: Option<string>, businessType: Option<string>)
    ensures !Truthy(email) && !Truthy(phone) && !Truthy(website) && !Truthy(location) && !Truthy(businessType)
            ==> CalculateDiscoveryConfidence(email, phone, website, location, businessType) == 0
    ensures Truthy(email) && Truthy(phone) && Truthy(website) && Truthy(location) && Truthy(businessType)
            ==> CalculateDiscoveryConfidence(email, phone, website, location, businessType) == 100
  {
  }

  /** An extra truthy attribute never lowers the confidence. */
  lemma {:induction false} ConfidenceMonotone(email: Option<string>, phone: Option<string>, website: Option<string>,
                           location: Option<string>, businessType: Option<string>,
                           email': Option<string>, phone': Option<string>, website': Option<string>,
                           location': Option<string>, businessType': Option<string>)
    requires Truthy(email) ==> Truthy(email')
    requires Truthy(phone) ==> Truthy(phone')
    requires Truthy(website) ==> Truthy(website')
    requires Truthy(location) ==> Truthy(location')
    requires Truthy(businessType) ==> Truthy(businessType')
    ensures CalculateDiscoveryConfidence(email, phone, website, location, businessType)
         <= CalculateDiscoveryConfidence(email', phone', website', location', businessType')
  {
  }
}

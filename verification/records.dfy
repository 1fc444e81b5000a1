/**
 * The raw prospect record the deduplication engine consumes (`ProspectDict`,
 * internal/utils/dto.py). Python records are dictionaries; optional string
 * fields are `Option<string>`, and Python truthiness of such a field is
 * `Truthy`.
 */
module Records {
  import opened Wrappers

  /**
   * The `about` field of a raw record: missing or `None` (or any value that is
   * neither a string nor a list), a string, or a list of strings.
   */
  datatype About = NoAbout | AboutText(text: string) | AboutList(items: seq<string>)

  datatype ContactInfo = ContactInfo(email: Option<string>, phone: Option<string>, website: Option<string>)

  datatype RawProspect = RawProspect(
    prospectId: string,
    sourcePlatform: string,
    name: string,
    about: About,
    contact: ContactInfo,
    location: string,
    businessContext: Option<string>,
    sourceUrl: string,
    discoveryConfidence: real,
    timestamp: string)

  /** Python truthiness of an optional string: present and non-empty. */
  predicate Truthy(s: Option<string>) {
    s.Some? && s.value != ""
  }

  /** The weight an additive score gives a field: `weight` when it is truthy, else nothing. */
  function WeightIf(field: Option<string>, weight: nat): nat {
    if Truthy(field) then weight else 0
  }
}

/**
 * The canonical prospect and its merge step (internal/utils/models.py):
 * `MergedContactInfo`, `SourceReference` and `CanonicalProspect.merge_with`.
 *
 * Each class has a `View()`, a value snapshot of its fields; the methods are
 * specified by pure functions on these views, and the promises of the merge
 * step are lemmas about those functions.
 */
module Models {
  import opened Wrappers
  import opened Records

  /** `SourceReference`: where one raw record came from. */
  datatype SourceReference = SourceReference(
    tempProspectId: string,
    sourcePlatform: string,
    sourceUrl: string,
    discoveryConfidence: real,
    timestamp: string)

  /** The provenance entry `merge_with` and the engine record for a raw record. */
  function SourceOf(raw: RawProspect): SourceReference
  {
    SourceReference(raw.prospectId, raw.sourcePlatform, raw.sourceUrl, raw.discoveryConfidence, raw.timestamp)
  }

  /** The contact sets of a `MergedContactInfo`. */
  datatype ContactView = ContactView(emails: set<string>, phones: set<string>, websites: set<string>)

  /** The fields of a `CanonicalProspect`. */
  datatype CanonicalView = CanonicalView(
    prospectId: string,
    name: string,
    contact: ContactView,
    location: string,
    about: seq<string>,
    businessContext: Option<string>,
    confidenceScore: real,
    sources: seq<SourceReference>,
    createdAt: string)

  /** `if value: s.add(value)`. */
  function AddTruthy(s: set<string>, v: Option<string>): set<string>
  {
    if Truthy(v) then s + {v.value} else s
  }

  /** The contact sets after adding a raw record's truthy e-mail, phone and website. */
  function AddContact(c: ContactView, raw: RawProspect): ContactView
  {
    ContactView(AddTruthy(c.emails, raw.contact.email),
                AddTruthy(c.phones, raw.contact.phone),
                AddTruthy(c.websites, raw.contact.website))
  }

  /** The `about` texts of a raw record as a list: a non-empty string is a one-item list. */
  function AboutTexts(a: About): seq<string>
  {
    match a
    case NoAbout => []
    case AboutText(s) => if s == "" then [] else [s]
    case AboutList(items) => items
  }

  /** One step of the `about` loop: a non-empty text not yet present is appended. */
  function AddText(about: seq<string>, t: string): seq<string>
  {
    if t != "" && t !in about then about + [t] else about
  }

  /** The `about` loop over `texts`, in order. */
  function AppendNew(about: seq<string>, texts: seq<string>): seq<string>
    decreases |texts|
  {
    if texts == [] then about
    else AddText(AppendNew(about, texts[..|texts| - 1]), texts[|texts| - 1])
  }

  predicate NoDuplicates(xs: seq<string>) {
    forall i, j :: 0 <= i < j < |xs| ==> xs[i] != xs[j]
  }

  /** Python's `max(a, b)`. */
  function Max(a: real, b: real): real
  {
    if b > a then b else a
  }

  /** `merge_with` on the fields of a canonical record. */
  function MergeView(v: CanonicalView, raw: RawProspect): CanonicalView
  {
    v.(contact := AddContact(v.contact, raw),
       about := AppendNew(v.about, AboutTexts(raw.about)),
       confidenceScore := Max(v.confidenceScore, raw.discoveryConfidence),
       sources := v.sources + [SourceOf(raw)],
       businessContext := if !Truthy(v.businessContext) && Truthy(raw.businessContext) then raw.businessContext
                          else v.businessContext)
  }

  /** Merging the records `raws` one after another. */
  function MergeAll(v: CanonicalView, raws: seq<RawProspect>): CanonicalView
    decreases |raws|
  {
    if raws == [] then v else MergeAll(MergeView(v, raws[0]), raws[1..])
  }

  // ---------------------------------------------------------------------------
  // Properties of the `about` loop

  /** The texts already collected stay, in their order, at the front. */
  lemma {:induction false} AppendNewPrefix(about: seq<string>, texts: seq<string>)
    ensures |about| <= |AppendNew(about, texts)|
    ensures AppendNew(about, texts)[..|about|] == about
    decreases |texts|
  {
    if texts != [] {
      AppendNewPrefix(about, texts[..|texts| - 1]);
    }
  }

  /** A text is collected exactly when it was there before or is a non-empty text of `texts`. */
  lemma {:induction false} AppendNewElements(about: seq<string>, texts: seq<string>)
    ensures forall x :: x in AppendNew(about, texts) <==> x in about || (x != "" && x in texts)
    decreases |texts|
  {
    if texts != [] {
      var init := texts[..|texts| - 1];
      AppendNewElements(about, init);
      assert texts == init + [texts[|texts| - 1]];
    }
  }

  /** A duplicate-free list stays duplicate-free. */
  lemma {:induction false} AppendNewNoDuplicates(about: seq<string>, texts: seq<string>)
    requires NoDuplicates(about)
    ensures NoDuplicates(AppendNew(about, texts))
    decreases |texts|
  {
    if texts != [] {
      AppendNewNoDuplicates(about, texts[..|texts| - 1]);
    }
  }

  /** Texts that are all present already change nothing. */
  lemma {:induction false} AppendNewPresent(about: seq<string>, texts: seq<string>)
    requires forall k :: 0 <= k < |texts| && texts[k] != "" ==> texts[k] in about
    ensures AppendNew(about, texts) == about
    decreases |texts|
  {
    if texts != [] {
      AppendNewPresent(about, texts[..|texts| - 1]);
    }
  }

  /** Collecting the same texts twice is the same as collecting them once. */
  lemma {:induction false} AppendNewIdempotent(about: seq<string>, texts: seq<string>)
    ensures AppendNew(AppendNew(about, texts), texts) == AppendNew(about, texts)
  {
    AppendNewElements(about, texts);
    AppendNewPresent(AppendNew(about, texts), texts);
  }

  // ---------------------------------------------------------------------------
  // Properties of one merge

  /**
   * One `merge_with`: contacts grow by the record's truthy values only,
   * confidence never decreases and becomes the larger of the two, exactly one
   * source reference is appended, the first truthy business context wins, and
   * identity, name, location and creation time never change.
   */
  lemma {:induction false} MergeViewSpec(v: CanonicalView, raw: RawProspect)
    ensures var r := MergeView(v, raw);
      && r.prospectId == v.prospectId && r.name == v.name && r.location == v.location && r.createdAt == v.createdAt
      && v.contact.emails <= r.contact.emails
      && (forall e :: e in r.contact.emails - v.contact.emails ==> Truthy(raw.contact.email) && e == raw.contact.email.value)
      && (Truthy(raw.contact.email) ==> raw.contact.email.value in r.contact.emails)
      && v.contact.phones <= r.contact.phones
      && (forall e :: e in r.contact.phones - v.contact.phones ==> Truthy(raw.contact.phone) && e == raw.contact.phone.value)
      && (Truthy(raw.contact.phone) ==> raw.contact.phone.value in r.contact.phones)
      && v.contact.websites <= r.contact.websites
      && (forall e :: e in r.contact.websites - v.contact.websites ==> Truthy(raw.contact.website) && e == raw.contact.website.value)
      && (Truthy(raw.contact.website) ==> raw.contact.website.value in r.contact.websites)
      && v.confidenceScore <= r.confidenceScore && raw.discoveryConfidence <= r.confidenceScore
      && (r.confidenceScore == v.confidenceScore || r.confidenceScore == raw.discoveryConfidence)
      && |r.sources| == |v.sources| + 1 && r.sources[..|v.sources|] == v.sources
      && r.sources[|v.sources|].tempProspectId == raw.prospectId
      && r.sources[|v.sources|].discoveryConfidence == raw.discoveryConfidence
      && (Truthy(v.businessContext) ==> r.businessContext == v.businessContext)
      && (!Truthy(v.businessContext) && Truthy(raw.businessContext) ==> r.businessContext == raw.businessContext)
      && (NoDuplicates(v.about) ==> NoDuplicates(r.about))
      && |v.about| <= |r.about| && r.about[..|v.about|] == v.about
  {
    AppendNewPrefix(v.about, AboutTexts(raw.about));
    if NoDuplicates(v.about) {
      AppendNewNoDuplicates(v.about, AboutTexts(raw.about));
    }
  }

  /** Merging the same record twice adds a second source reference and changes nothing else. */
  lemma {:induction false} MergeViewTwice(v: CanonicalView, raw: RawProspect)
    ensures MergeView(MergeView(v, raw), raw) == MergeView(v, raw).(sources := MergeView(v, raw).sources + [SourceOf(raw)])
  {
    AppendNewIdempotent(v.about, AboutTexts(raw.about));
  }

  /** The provenance of a run of merges: one reference per record, in merge order. */
  lemma {:induction false} MergeAllSources(v: CanonicalView, raws: seq<RawProspect>)
    ensures |MergeAll(v, raws).sources| == |v.sources| + |raws|
    ensures MergeAll(v, raws).sources[..|v.sources|] == v.sources
    ensures forall k :: 0 <= k < |raws| ==> MergeAll(v, raws).sources[|v.sources| + k] == SourceOf(raws[k])
    decreases |raws|
  {
    if raws != [] {
      var w := MergeView(v, raws[0]);
      MergeAllSources(w, raws[1..]);
      forall k | 0 <= k < |raws|
        ensures MergeAll(v, raws).sources[|v.sources| + k] == SourceOf(raws[k])
      {
        if k > 0 {
          assert raws[1..][k - 1] == raws[k];
        }
      }
    }
  }

  /** A run of merges keeps identity, name, location and creation time, and never lowers the confidence. */
  lemma {:induction false} MergeAllKeeps(v: CanonicalView, raws: seq<RawProspect>)
    ensures var r := MergeAll(v, raws);
      && r.prospectId == v.prospectId && r.name == v.name && r.location == v.location && r.createdAt == v.createdAt
      && v.confidenceScore <= r.confidenceScore
      && (forall k :: 0 <= k < |raws| ==> raws[k].discoveryConfidence <= r.confidenceScore)
      && (Truthy(v.businessContext) ==> r.businessContext == v.businessContext)
    decreases |raws|
  {
    if raws != [] {
      var w := MergeView(v, raws[0]);
      MergeAllKeeps(w, raws[1..]);
      assert forall k :: 0 < k < |raws| ==> raws[1..][k - 1] == raws[k];
    }
  }

  /** Without a truthy business context of its own, a record takes the first truthy one among the merged records. */
  lemma {:induction false} MergeAllBusinessContext(v: CanonicalView, raws: seq<RawProspect>, k: nat)
    requires !Truthy(v.businessContext)
    requires k < |raws| && Truthy(raws[k].businessContext)
    requires forall j :: 0 <= j < k ==> !Truthy(raws[j].businessContext)
    ensures MergeAll(v, raws).businessContext == raws[k].businessContext
    decreases |raws|
  {
    var w := MergeView(v, raws[0]);
    if k == 0 {
      MergeAllKeeps(w, raws[1..]);
    } else {
      assert forall j :: 0 <= j < k - 1 ==> raws[1..][j] == raws[j + 1];
      MergeAllBusinessContext(w, raws[1..], k - 1);
    }
  }

  // ---------------------------------------------------------------------------
  // The classes

  /** `list(s)` for a set: every element once, in some order. */
  method ListOf(s: set<string>) returns (xs: seq<string>)
    ensures forall x :: x in xs <==> x in s
    ensures NoDuplicates(xs)
    ensures |xs| == |s|
  {
    xs := [];
    var rest := s;
    while rest != {}
      invariant rest <= s
      invariant forall x :: x in xs <==> x in s && x !in rest
      invariant NoDuplicates(xs)
      invariant |xs| + |rest| == |s|
      decreases |rest|
    {
      var x :| x in rest;
      xs := xs + [x];
      rest := rest - {x};
    }
  }

  /** The dictionary `MergedContactInfo.to_dict` returns. */
  datatype ContactDict = ContactDict(emails: seq<string>, phones: seq<string>, websites: seq<string>)

  /** `list` holds each element of `s` exactly once. */
  predicate ListsSet(list: seq<string>, s: set<string>) {
    (forall x :: x in list ==> x in s) && (forall x :: x in s ==> x in list) && NoDuplicates(list)
  }

  class MergedContactInfo {
    var emails: set<string>
    var phones: set<string>
    var websites: set<string>

    constructor ()
      ensures emails == {} && phones == {} && websites == {}
    {
      emails, phones, websites := {}, {}, {};
    }

    function View(): ContactView
      reads this
    {
      ContactView(emails, phones, websites)
    }

    /** `merge`: field-wise union with `other`. */
    method Merge(other: MergedContactInfo)
      modifies this
      ensures emails == old(emails) + old(other.emails)
      ensures phones == old(phones) + old(other.phones)
      ensures websites == old(websites) + old(other.websites)
    {
      var e, p, w := other.emails, other.phones, other.websites;
      emails := emails + e;
      phones := phones + p;
      websites := websites + w;
    }

    /** `to_dict`: each set as a list without duplicates. */
    method ToDict() returns (d: ContactDict)
      ensures ListsSet(d.emails, emails) && ListsSet(d.phones, phones) && ListsSet(d.websites, websites)
    {
      var es := ListOf(emails);
      var ps := ListOf(phones);
      var ws := ListOf(websites);
      d := ContactDict(es, ps, ws);
    }
  }

  /** The dictionary `CanonicalProspect.to_dict` returns. */
  datatype CanonicalDict = CanonicalDict(
    prospectId: string,
    name: string,
    contact: ContactDict,
    location: string,
    about: seq<string>,
    businessContext: Option<string>,
    confidenceScore: real,
    sourceCount: nat,
    sources: seq<SourceReference>,
    createdAt: string)

  /** `d` is what `to_dict` reports for a record with fields `v`. */
  predicate DictOf(d: CanonicalDict, v: CanonicalView) {
    && d.prospectId == v.prospectId && d.name == v.name && d.location == v.location
    && ListsSet(d.contact.emails, v.contact.emails)
    && ListsSet(d.contact.phones, v.contact.phones)
    && ListsSet(d.contact.websites, v.contact.websites)
    && d.about == v.about && d.businessContext == v.businessContext
    && d.confidenceScore == v.confidenceScore
    && d.sourceCount == |v.sources| && d.sources == v.sources
    && d.createdAt == v.createdAt
  }

  class CanonicalProspect {
    var prospectId: string
    var name: string
    const contact: MergedContactInfo
    var location: string
    var about: seq<string>
    var businessContext: Option<string>
    var confidenceScore: real
    var sources: seq<SourceReference>
    var createdAt: string

    /** A record with no sources yet; `createdAt` is the creation time the caller read from the clock. */
    constructor (prospectId: string, name: string, about: seq<string>, contact: MergedContactInfo,
                 location: string, businessContext: Option<string>, confidenceScore: real, createdAt: string)
      ensures this.prospectId == prospectId && this.name == name && this.about == about
      ensures this.contact == contact && this.location == location
      ensures this.businessContext == businessContext && this.confidenceScore == confidenceScore
      ensures this.sources == [] && this.createdAt == createdAt
    {
      this.prospectId := prospectId;
      this.name := name;
      this.about := about;
      this.contact := contact;
      this.location := location;
      this.businessContext := businessContext;
      this.confidenceScore := confidenceScore;
      this.sources := [];
      this.createdAt := createdAt;
    }

    function View(): CanonicalView
      reads this, contact
    {
      CanonicalView(prospectId, name, contact.View(), location, about, businessContext, confidenceScore, sources, createdAt)
    }

    /** `merge_with`. */
    method MergeWith(raw: RawProspect)
      modifies this, contact
      ensures View() == MergeView(old(View()), raw)
    {
      if Truthy(raw.contact.email) {
        contact.emails := contact.emails + {raw.contact.email.value};
      }
      if Truthy(raw.contact.phone) {
        contact.phones := contact.phones + {raw.contact.phone.value};
      }
      if Truthy(raw.contact.website) {
        contact.websites := contact.websites + {raw.contact.website.value};
      }

      var texts := AboutTexts(raw.about);
      var collected := about;
      var k := 0;
      while k < |texts|
        invariant 0 <= k <= |texts|
        invariant collected == AppendNew(about, texts[..k])
      {
        var t := texts[k];
        if t != "" && t !in collected {
          collected := collected + [t];
        }
        assert texts[..k + 1][..k] == texts[..k];
        k := k + 1;
      }
      assert texts[..|texts|] == texts;
      about := collected;

      confidenceScore := Max(confidenceScore, raw.discoveryConfidence);
      sources := sources + [SourceOf(raw)];
      if !Truthy(businessContext) && Truthy(raw.businessContext) {
        businessContext := raw.businessContext;
      }
    }

    /** `to_dict`. */
    method ToDict() returns (d: CanonicalDict)
      ensures DictOf(d, View())
    {
      var c := contact.ToDict();
      d := CanonicalDict(prospectId, name, c, location, about, businessContext, confidenceScore,
                         |sources|, sources, createdAt);
    }
  }
}

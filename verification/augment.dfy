/**
 * `merge_prospects_info` (internal/domain/pipeline/helper.py): website
 * information fetched for some URLs fills the missing `about`, email and
 * phone of the prospects whose website has the same normalised URL. The
 * prospects are changed in place and the touched ones are returned.
 */
module Augmentation {
  import opened Wrappers
  import opened Records
  import opened Normalizer
  import opened Seqs

  /** One key of a `WebsiteInfo` dict: missing, or present with a string or `None`. */
  datatype Field = Absent | Present(value: Option<string>)

  /** A `WebsiteInfo` dict (internal/domain/common/dto.py); keys other than these four are never read. */
  datatype WebsiteInfo = WebsiteInfo(url: Option<string>, about: Field, email: Field, phone: Field)

  /**
   * The parts of a `Prospect` dict this operation reads or writes: its
   * `about`, and the `email`, `phone` and `website` of its `contact`. The
   * website is only read.
   */
  class Prospect {
    var about: Option<string>
    var email: Option<string>
    var phone: Option<string>
    const website: Option<string>

    constructor (about: Option<string>, email: Option<string>, phone: Option<string>, website: Option<string>)
      ensures this.about == about && this.email == email && this.phone == phone && this.website == website
    {
      this.about := about;
      this.email := email;
      this.phone := phone;
      this.website := website;
    }
  }

  /**
   * The key function of the index, `normalize_url` with its defaults in
   * `MergeProspectsInfo`; the lemmas hold for any key function.
   */
  type UrlKey = string -> string

  /** `item` contributes an entry under `key` to the augmentation index. */
  predicate Keyed(item: WebsiteInfo, norm: UrlKey, key: string) {
    Truthy(item.url) && norm(item.url.value) == key
  }

  /** Lines 12-16: the index by normalised URL; items without a truthy `url` are skipped. */
  function Index(infos: seq<WebsiteInfo>, norm: UrlKey): map<string, WebsiteInfo>
  {
    if infos == [] then map[]
    else
      var rest := Index(infos[..|infos| - 1], norm);
      var last := infos[|infos| - 1];
      if Truthy(last.url) then rest[norm(last.url.value) := last] else rest
  }

  /** A key is in the index exactly when some item with a truthy `url` normalises to it. */
  lemma {:induction false} IndexKeys(infos: seq<WebsiteInfo>, norm: UrlKey, key: string)
    ensures key in Index(infos, norm) <==> exists i :: 0 <= i < |infos| && Keyed(infos[i], norm, key)
  {
    if infos != [] {
      var init := infos[..|infos| - 1];
      IndexKeys(init, norm, key);
      if Keyed(infos[|infos| - 1], norm, key) {
        assert key in Index(infos, norm);
      } else {
        assert key in Index(infos, norm) <==> key in Index(init, norm);
        if i :| 0 <= i < |infos| && Keyed(infos[i], norm, key) {
          assert Keyed(init[i], norm, key);
        }
        if i :| 0 <= i < |init| && Keyed(init[i], norm, key) {
          assert Keyed(infos[i], norm, key);
        }
      }
    }
  }

  /** For items sharing a key, the last one is the one the index keeps. */
  lemma {:induction false} IndexLastWins(infos: seq<WebsiteInfo>, norm: UrlKey, key: string, i: nat)
    requires i < |infos| && Keyed(infos[i], norm, key)
    requires forall j :: i < j < |infos| ==> !Keyed(infos[j], norm, key)
    ensures key in Index(infos, norm) && Index(infos, norm)[key] == infos[i]
  {
    if i < |infos| - 1 {
      var init := infos[..|infos| - 1];
      assert !Keyed(infos[|infos| - 1], norm, key);
      assert Keyed(init[i], norm, key);
      IndexLastWins(init, norm, key, i);
    }
  }

  /** Lines 32-39: a present value is written only over a falsy current value. */
  function Fill(current: Option<string>, field: Field): (r: Option<string>)
    ensures Truthy(current) ==> r == current
    ensures !Truthy(current) && field.Present? ==> r == field.value
    ensures field.Absent? ==> r == current
  {
    if field.Present? && !Truthy(current) then field.value else current
  }

  /** Filling twice from the same item is filling once. */
  lemma {:induction false} FillIdempotent(current: Option<string>, field: Field)
    ensures Fill(Fill(current, field), field) == Fill(current, field)
  {
  }

  /** Lines 19-26: the index entry for a prospect's website, if it has a truthy one and there is one. */
  function Lookup(index: map<string, WebsiteInfo>, norm: UrlKey, website: Option<string>): (r: Option<WebsiteInfo>)
    ensures r.Some? <==> Truthy(website) && norm(website.value) in index
    ensures r.Some? ==> r.value == index[norm(website.value)]
  {
    if Truthy(website) && norm(website.value) in index then Some(index[norm(website.value)]) else None
  }

  /** Lines 19-25: the test a prospect must pass to be augmented and returned. */
  function Indexed(index: map<string, WebsiteInfo>, norm: UrlKey): Prospect -> bool
  {
    (p: Prospect) => Lookup(index, norm, p.website).Some?
  }

  /** The prospects `merge_prospects_info` returns. */
  function Kept(ps: seq<Prospect>, index: map<string, WebsiteInfo>, norm: UrlKey): seq<Prospect>
  {
    Filter(ps, Indexed(index, norm))
  }

  /**
   * A prospect is returned exactly when its website is truthy and its normal
   * form is indexed, and the returned prospects keep their input order.
   */
  lemma {:induction false} KeptProspects(ps: seq<Prospect>, index: map<string, WebsiteInfo>, norm: UrlKey, p: Prospect)
    ensures p in Kept(ps, index, norm) <==> p in ps && Truthy(p.website) && norm(p.website.value) in index
    ensures IsSubsequence(Kept(ps, index, norm), ps)
  {
    FilterMembers(ps, Indexed(index, norm), p);
    FilterIsSubsequence(ps, Indexed(index, norm));
  }

  /** The fields of `p` after the merge, given the fields it had before. */
  predicate Augmented(p: Prospect, index: map<string, WebsiteInfo>, norm: UrlKey,
                      about: Option<string>, email: Option<string>, phone: Option<string>)
    reads p
  {
    match Lookup(index, norm, p.website)
    case Some(source) =>
      p.about == Fill(about, source.about) && p.email == Fill(email, source.email)
      && p.phone == Fill(phone, source.phone)
    case None =>
      p.about == about && p.email == email && p.phone == phone
  }

  /**
   * One iteration of lines 18-40: when the prospect's website is indexed,
   * its falsy `about`, email and phone are filled from the item.
   */
  method AugmentProspect(item: Prospect, index: map<string, WebsiteInfo>, norm: UrlKey) returns (hit: bool)
    modifies item
    ensures hit == Indexed(index, norm)(item)
    ensures Augmented(item, index, norm, old(item.about), old(item.email), old(item.phone))
  {
    var url := item.website;
    hit := Truthy(url) && norm(url.value) in index;
    if hit {
      var source := index[norm(url.value)];
      if source.about.Present? && !Truthy(item.about) {
        item.about := source.about.value;
      }
      if source.email.Present? && !Truthy(item.email) {
        item.email := source.email.value;
      }
      if source.phone.Present? && !Truthy(item.phone) {
        item.phone := source.phone.value;
      }
    }
  }

  /**
   * The loop of lines 18-40 with the index built by `norm`: every prospect
   * whose website is indexed has its falsy `about`, email and phone filled
   * from the item, in place, and these prospects are returned in order; all
   * others are left as they were.
   */
  method MergeProspectsInfoBy(prospects: seq<Prospect>, infos: seq<WebsiteInfo>, norm: UrlKey)
    returns (augmented: seq<Prospect>)
    modifies set p | p in prospects
    ensures augmented == Kept(prospects, Index(infos, norm), norm)
    ensures forall p :: p in prospects ==> Augmented(p, Index(infos, norm), norm, old(p.about), old(p.email), old(p.phone))
  {
    var index := Index(infos, norm);
    augmented := [];
    var i := 0;
    while i < |prospects|
      invariant 0 <= i <= |prospects|
      invariant augmented == Kept(prospects[..i], index, norm)
      invariant forall p :: p in prospects && p in prospects[..i] ==>
        Augmented(p, index, norm, old(p.about), old(p.email), old(p.phone))
      invariant forall p :: p in prospects && p !in prospects[..i] ==>
        p.about == old(p.about) && p.email == old(p.email) && p.phone == old(p.phone)
    {
      var item := prospects[i];
      var hit := AugmentProspect(item, index, norm);
      if hit {
        augmented := augmented + [item];
      }
      FilterAppend(prospects[..i], [item], Indexed(index, norm));
      assert prospects[..i + 1] == prospects[..i] + [item];
      i := i + 1;
    }
    assert prospects[..i] == prospects;
  }

  /** `merge_prospects_info(prospects, augmentation_info)` (lines 5-42): the index is keyed by `normalize_url`. */
  method MergeProspectsInfo(prospects: seq<Prospect>, infos: seq<WebsiteInfo>) returns (augmented: seq<Prospect>)
    modifies set p | p in prospects
    ensures augmented == Kept(prospects, Index(infos, NormalizeUrlDefault), NormalizeUrlDefault)
    ensures forall p :: p in prospects ==>
      Augmented(p, Index(infos, NormalizeUrlDefault), NormalizeUrlDefault, old(p.about), old(p.email), old(p.phone))
  {
    augmented := MergeProspectsInfoBy(prospects, infos, NormalizeUrlDefault);
  }
}

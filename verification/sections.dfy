/** The section parser: `parseJsonFormat` (scraper.js:51-71). It walks the
    section list in order; from every section that owns an
    `itemSectionRenderer` it parses the first `limit` entries, appending each
    record that parses and skipping each entry that throws. A section that
    throws is skipped as a whole.
 */
module Sections {
  import opened Wrappers
  import opened Js
  import opened Pages
  import opened Renderer
  import opened Seqs

  /** `section.hasOwnProperty("itemSectionRenderer")`. Throws on `null`, and on
      an object that has its own (necessarily non-callable) `hasOwnProperty`
      member; primitives and arrays own no such property. */
  function HasItemSection(section: Json): (r: Completion<bool>)
    ensures r == Success(true) <==> section.JObj? && "itemSectionRenderer" in section.fields && "hasOwnProperty" !in section.fields
    ensures r.Failure? <==> section == JNull || (section.JObj? && "hasOwnProperty" in section.fields)
  {
    match section
    case JNull => Failure(TypeError("Cannot read properties of null (reading 'hasOwnProperty')"))
    case JObj(m) =>
      if "hasOwnProperty" in m then Failure(TypeError("sectionList.hasOwnProperty is not a function"))
      else Success("itemSectionRenderer" in m)
    case _ => Success(false)
  }

  /** `parseVideoRenderer(entry.videoRenderer)` */
  function ParseEntry(entry: Json): (r: Completion<Item>)
    ensures entry == JNull ==> r.Failure?
    ensures Prop(Value(entry), "videoRenderer") == Success(Undefined) ==> r.Failure?
  {
    var renderer :- Prop(Value(entry), "videoRenderer");
    ParseVideoRenderer(renderer)
  }

  /** The records of the entries that parse, in entry order: the inner loop's
      `try { push(...) } catch { }` over `entries`. */
  function ParseEntries(entries: seq<Json>): (items: seq<Item>)
    ensures |items| <= |entries|
  {
    CollectBound(EntryItems, entries, 1);
    Collect(EntryItems, entries)
  }

  /** What one entry pushes: its record, or nothing when it throws */
  function EntryItems(entry: Json): (items: seq<Item>)
    ensures |items| <= 1
  {
    match ParseEntry(entry)
    case Success(item) => [item]
    case Failure(_) => []
  }

  /** How many of `n` entries the loop `index < limit && index < n` visits */
  function Attempted(limit: nat, n: nat): nat {
    if limit < n then limit else n
  }

  /** One run of the `forEach` body without its catch: the items the section
      adds, or the exception that escapes the inner loop. The loop test reads
      `limit` first, so with `limit == 0` the contents are never read. */
  function SectionOutcome(section: Json, limit: nat): (r: Completion<seq<Item>>)
    ensures HasItemSection(section) == Success(false) ==> r == Success([])
    ensures r.Failure? <==>
              || HasItemSection(section).Failure?
              || (&& limit > 0 && HasItemSection(section) == Success(true)
                  && var sectionRenderer := Value(section.fields["itemSectionRenderer"]);
                     Nullish(sectionRenderer) || Nullish(Prop(sectionRenderer, "contents").value))
    ensures r.Success? ==> |r.value| <= limit
    ensures section.JObj? && "itemSectionRenderer" in section.fields && section.fields["itemSectionRenderer"].JObj?
            && "contents" in section.fields["itemSectionRenderer"].fields
            && section.fields["itemSectionRenderer"].fields["contents"].JArr?
            && HasItemSection(section).Success? ==>
              var entries := section.fields["itemSectionRenderer"].fields["contents"].elems;
              r == Success(ParseEntries(entries[..Attempted(limit, |entries|)]))
  {
    var has :- HasItemSection(section);
    if !has || limit == 0 then Success([])
    else
      var contents :- Prop(Value(section.fields["itemSectionRenderer"]), "contents");
      match contents
      case Undefined => Failure(TypeError("Cannot read properties of undefined (reading 'length')"))
      case Value(JNull) => Failure(TypeError("Cannot read properties of null (reading 'length')"))
      case Value(JArr(entries)) => Success(ParseEntries(entries[..Attempted(limit, |entries|)]))
      // A string's entries are one-character strings, whose `videoRenderer`
      // is undefined, so every one of them throws; any other value has no
      // `length`, so the loop test fails at once.
      case Value(_) => Success([])
  }

  /** The items a section contributes once the section's exception, if any,
      has been caught */
  function SectionItems(section: Json, limit: nat): (items: seq<Item>)
    ensures |items| <= limit
  {
    SectionOutcome(section, limit).GetOr([])
  }

  /** `sections.forEach(...)`, pushing onto `results` */
  function FoldSections(results: seq<Item>, sections: seq<Json>, limit: nat): (r: seq<Item>)
    ensures results <= r
    ensures |r| <= |results| + limit * |sections|
  {
    FoldIsCollect(SectionContribution(limit), results, sections);
    CollectBound(SectionContribution(limit), sections, limit);
    Fold(SectionContribution(limit), results, sections)
  }

  /** `parseJsonFormat(contents, json, limit)` with `json.results` equal to
      `results`: the new `json.results`, or the exception `contents.forEach`
      raises when `contents` is not an array. That exception is not caught
      here. */
  function ParseJsonFormat(contents: Val, results: seq<Item>, limit: nat): (r: Completion<seq<Item>>)
    ensures r.Success? <==> contents.Value? && contents.json.JArr?
    ensures r.Success? ==> results <= r.value && |r.value| <= |results| + limit * |contents.json.elems|
  {
    match contents
    case Value(JArr(sections)) => Success(FoldSections(results, sections, limit))
    case _ => Failure(TypeError("contents.forEach is not a function"))
  }

  // ------------------------------------------------- reference definitions

  /** The sections' contributions, concatenated in page order */
  ghost function AllSectionItems(sections: seq<Json>, limit: nat): seq<Item> {
    Collect(SectionContribution(limit), sections)
  }

  /** One section's records, as the fold appends them */
  function SectionContribution(limit: nat): (f: Json -> seq<Item>)
    ensures forall section :: |f(section)| <= limit
  {
    section => SectionItems(section, limit)
  }

  /** The records of well-formed videos, in order */
  ghost function ExpectedAll(xs: seq<VideoShape>): (r: seq<Item>)
    requires forall i :: 0 <= i < |xs| ==> |xs[i].thumbnailUrls| > 0
    ensures |r| == |xs|
  {
    if |xs| == 0 then [] else [Expected(xs[0])] + ExpectedAll(xs[1..])
  }

  /** The records of sections holding the videos `xss`: the first `limit`
      videos of each section, section by section */
  ghost function ExpectedSections(xss: seq<seq<VideoShape>>, limit: nat): seq<Item>
    requires forall i, j :: 0 <= i < |xss| && 0 <= j < |xss[i]| ==> |xss[i][j].thumbnailUrls| > 0
  {
    if |xss| == 0 then []
    else ExpectedAll(xss[0][..Attempted(limit, |xss[0]|)]) + ExpectedSections(xss[1..], limit)
  }

  // ---------------------------------------------------------------- lemmas

  /** The fold only appends: its result is `results` followed by every
      section's contribution, section by section in page order. */
  lemma FoldIsConcatenation(results: seq<Item>, sections: seq<Json>, limit: nat)
    ensures FoldSections(results, sections, limit) == results + AllSectionItems(sections, limit)
  {
    FoldIsCollect(SectionContribution(limit), results, sections);
  }

  lemma AllSectionItemsAppend(a: seq<Json>, b: seq<Json>, limit: nat)
    ensures AllSectionItems(a + b, limit) == AllSectionItems(a, limit) + AllSectionItems(b, limit)
  {
    CollectAppend(SectionContribution(limit), a, b);
  }

  /** A section that contributes nothing (it has no `itemSectionRenderer`, or
      it throws) leaves the rest of the fold as if it were not there: later
      sections are still processed. */
  lemma SilentSectionIsSkipped(results: seq<Item>, a: seq<Json>, section: Json, b: seq<Json>, limit: nat)
    requires SectionOutcome(section, limit).Failure? || HasItemSection(section) == Success(false)
    ensures FoldSections(results, a + [section] + b, limit) == FoldSections(results, a + b, limit)
  {
    assert SectionItems(section, limit) == [];
    CollectOne(SectionContribution(limit), section);
    AllSectionItemsAppend(a, [section], limit);
    assert AllSectionItems(a + [section], limit) == AllSectionItems(a, limit);
    AllSectionItemsAppend(a + [section], b, limit);
    AllSectionItemsAppend(a, b, limit);
    FoldIsConcatenation(results, a + [section] + b, limit);
    FoldIsConcatenation(results, a + b, limit);
  }

  lemma ParseEntriesAppend(a: seq<Json>, b: seq<Json>)
    ensures ParseEntries(a + b) == ParseEntries(a) + ParseEntries(b)
  {
    CollectAppend(EntryItems, a, b);
  }

  /** An entry that throws is skipped; the entries after it are still parsed */
  lemma FailingEntryIsSkipped(a: seq<Json>, entry: Json, b: seq<Json>)
    requires ParseEntry(entry).Failure?
    ensures ParseEntries(a + [entry] + b) == ParseEntries(a) + ParseEntries(b)
  {
    ParseEntriesAppend(a + [entry], b);
    ParseEntriesAppend(a, [entry]);
    CollectOne(EntryItems, entry);
  }

  /** An item section contributes the records of its first `limit` entries
      that parse */
  lemma ItemSectionItems(section: Json, limit: nat)
    requires IsItemSection(section)
    ensures var entries := SectionEntries(section);
            SectionItems(section, limit) == ParseEntries(entries[..Attempted(limit, |entries|)])
  {
    assert HasItemSection(section) == Success(true);
  }

  /** Entries past the first `limit` of a section are never looked at: two
      item sections that agree on their first `limit` entries contribute the
      same records. */
  lemma EntriesPastLimitAreIgnored(section: Json, other: Json, limit: nat)
    requires IsItemSection(section) && IsItemSection(other)
    requires limit <= |SectionEntries(section)| && limit <= |SectionEntries(other)|
    requires SectionEntries(section)[..limit] == SectionEntries(other)[..limit]
    ensures SectionItems(section, limit) == SectionItems(other, limit)
  {
    ItemSectionItems(section, limit);
    ItemSectionItems(other, limit);
  }

  /** Entries holding the fields of well-formed videos parse to the records
      those fields describe, in order */
  lemma ParseWellFormedEntries(entries: seq<Json>, xs: seq<VideoShape>)
    requires DescribesEntries(entries, xs)
    requires forall i :: 0 <= i < |xs| ==> |xs[i].thumbnailUrls| > 0
    ensures ParseEntries(entries) == ExpectedAll(xs)
  {
    forall i | 0 <= i < |xs|
      ensures EntryItems(entries[i]) == [ExpectedAll(xs)[i]]
    {
      EntryOfShape(entries[i], xs[i]);
      ExpectedAllElements(xs);
    }
    CollectSingletons(EntryItems, entries, ExpectedAll(xs));
  }

  lemma {:induction false} ExpectedAllElements(xs: seq<VideoShape>)
    requires forall i :: 0 <= i < |xs| ==> |xs[i].thumbnailUrls| > 0
    ensures forall i :: 0 <= i < |xs| ==> ExpectedAll(xs)[i] == Expected(xs[i])
    decreases |xs|
  {
    if |xs| > 0 {
      ExpectedAllElements(xs[1..]);
    }
  }

  lemma EntryOfShape(entry: Json, x: VideoShape)
    requires DescribesEntry(entry, x) && |x.thumbnailUrls| > 0
    ensures EntryItems(entry) == [Expected(x)]
  {
    ParseWellFormedRenderer(entry.fields["videoRenderer"].fields, x);
  }

  /** A section holding the videos `xs` contributes the records of the first
      `limit` of them */
  lemma SectionOfShape(section: Json, xs: seq<VideoShape>, limit: nat)
    requires DescribesSection(section, xs)
    requires forall i :: 0 <= i < |xs| ==> |xs[i].thumbnailUrls| > 0
    ensures SectionItems(section, limit) == ExpectedAll(xs[..Attempted(limit, |xs|)])
  {
    if IsItemSection(section) && DescribesEntries(SectionEntries(section), xs) {
      var entries := SectionEntries(section);
      var n := Attempted(limit, |xs|);
      ItemSectionItems(section, limit);
      assert DescribesEntries(entries[..n], xs[..n]);
      ParseWellFormedEntries(entries[..n], xs[..n]);
    } else {
      assert HasItemSection(section) == Success(false);
    }
  }

  /** Sections holding the videos `xss` contribute the first `limit` records
      of each, section by section in page order */
  lemma {:induction false} WellFormedSectionsItems(sections: seq<Json>, xss: seq<seq<VideoShape>>, limit: nat)
    requires |sections| == |xss|
    requires forall i :: 0 <= i < |xss| ==> DescribesSection(sections[i], xss[i])
    requires forall i, j :: 0 <= i < |xss| && 0 <= j < |xss[i]| ==> |xss[i][j].thumbnailUrls| > 0
    ensures AllSectionItems(sections, limit) == ExpectedSections(xss, limit)
    decreases |xss|
  {
    if |xss| > 0 {
      SectionOfShape(sections[0], xss[0], limit);
      WellFormedSectionsItems(sections[1..], xss[1..], limit);
    }
  }

  /** The limit bounds each section, not the whole list: two sections of
      `limit` well-formed videos each yield `2 * limit` records. */
  lemma LimitIsPerSection(x: VideoShape, limit: nat)
    requires |x.thumbnailUrls| > 0
    ensures var section := ItemSection(EntriesJson(seq(limit, _ => x)));
            |FoldSections([], [section, section], limit)| == 2 * limit
  {
    var xs := seq(limit, _ => x);
    var section := ItemSection(EntriesJson(xs));
    ItemSectionIsItemSection(EntriesJson(xs));
    EntriesJsonDescribe(xs);
    SectionOfShape(section, xs, limit);
    assert xs[..limit] == xs;
    assert |SectionItems(section, limit)| == limit;
    FoldIsConcatenation([], [section, section], limit);
    AllSectionItemsAppend([section], [section], limit);
    CollectOne(SectionContribution(limit), section);
    assert [section] + [section] == [section, section];
  }
}

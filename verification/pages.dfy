/** Well-formed fragments of a search page: the shape the extraction code
    expects to find. `Describes` and its companions say when a decoded value
    holds given typed fields; any number of further members may be present.
    The builders produce one such value per set of fields. The record parser,
    the section parser and the driver are checked against their reference
    definitions on every value the predicates accept.
 */
module Pages {
  import opened Wrappers
  import opened Js

  /** The fields of one well-formed `videoRenderer` object. A `None` field is
      absent from the object. */
  datatype VideoShape = VideoShape(
    videoId: Option<string>,
    titleRuns: seq<string>,
    path: string,
    lengthText: Option<string>,
    publishedText: Option<string>,
    thumbnailUrls: seq<string>,
    ownerName: string,
    ownerPath: string,
    badgeStyles: Option<seq<string>>)

  /** `{ text: t }` */
  function TextRun(t: string): Json {
    JObj(map["text" := JStr(t)])
  }

  function TextRuns(ts: seq<string>): (r: seq<Json>)
    ensures |r| == |ts|
    ensures forall i :: 0 <= i < |ts| ==> r[i] == TextRun(ts[i])
  {
    seq(|ts|, i requires 0 <= i < |ts| => TextRun(ts[i]))
  }

  /** `{ commandMetadata: { webCommandMetadata: { url: path } } }` */
  function Endpoint(path: string): Json {
    JObj(map["commandMetadata" := JObj(map["webCommandMetadata" := JObj(map["url" := JStr(path)])])])
  }

  /** `{ simpleText: s }` */
  function SimpleText(s: string): Json {
    JObj(map["simpleText" := JStr(s)])
  }

  /** `{ url: u }` */
  function Thumbnail(u: string): Json {
    JObj(map["url" := JStr(u)])
  }

  /** `{ thumbnails: [{ url: u0 }, { url: u1 }, ...] }` */
  function Thumbnails(urls: seq<string>): Json {
    JObj(map["thumbnails" := JArr(seq(|urls|, i requires 0 <= i < |urls| => Thumbnail(urls[i])))])
  }

  /** `{ metadataBadgeRenderer: { style: style } }` */
  function Badge(style: string): Json {
    JObj(map["metadataBadgeRenderer" := JObj(map["style" := JStr(style)])])
  }

  function Badges(styles: seq<string>): (r: seq<Json>)
    ensures |r| == |styles|
    ensures forall i :: 0 <= i < |styles| ==> r[i] == Badge(styles[i])
  {
    seq(|styles|, i requires 0 <= i < |styles| => Badge(styles[i]))
  }

  /** `{ runs: [{ text: name, navigationEndpoint: ... }] }` */
  function OwnerText(name: string, path: string): Json {
    JObj(map["runs" := JArr([JObj(map["text" := JStr(name), "navigationEndpoint" := Endpoint(path)])])])
  }

  function WithOptional(m: map<string, Json>, key: string, v: Option<Json>): (r: map<string, Json>)
    ensures key in r <==> key in m || v.Some?
    ensures v.Some? ==> r[key] == v.value
    ensures forall k :: k != key ==> (k in r <==> k in m)
    ensures forall k :: k != key && k in m ==> r[k] == m[k]
  {
    match v
    case Some(j) => m[key := j]
    case None => m
  }

  function MapOption(o: Option<string>, f: string -> Json): Option<Json> {
    match o
    case Some(s) => Some(f(s))
    case None => None
  }

  /** The members every `videoRenderer` object has */
  function RequiredMembers(x: VideoShape): (m: map<string, Json>)
    ensures m.Keys == {"title", "navigationEndpoint", "thumbnail", "ownerText"}
    ensures m["title"] == JObj(map["runs" := JArr(TextRuns(x.titleRuns))])
    ensures m["navigationEndpoint"] == Endpoint(x.path)
    ensures m["thumbnail"] == Thumbnails(x.thumbnailUrls)
    ensures m["ownerText"] == OwnerText(x.ownerName, x.ownerPath)
  {
    map[
      "title" := JObj(map["runs" := JArr(TextRuns(x.titleRuns))]),
      "navigationEndpoint" := Endpoint(x.path),
      "thumbnail" := Thumbnails(x.thumbnailUrls),
      "ownerText" := OwnerText(x.ownerName, x.ownerPath)]
  }

  /** The members a `videoRenderer` object may lack, those `x` has */
  function OptionalMembers(x: VideoShape): (m: map<string, Json>)
    ensures m.Keys <= {"videoId", "lengthText", "publishedTimeText", "ownerBadges"}
    ensures "videoId" in m <==> x.videoId.Some?
    ensures x.videoId.Some? ==> m["videoId"] == JStr(x.videoId.value)
    ensures "lengthText" in m <==> x.lengthText.Some?
    ensures x.lengthText.Some? ==> m["lengthText"] == SimpleText(x.lengthText.value)
    ensures "publishedTimeText" in m <==> x.publishedText.Some?
    ensures x.publishedText.Some? ==> m["publishedTimeText"] == SimpleText(x.publishedText.value)
    ensures "ownerBadges" in m <==> x.badgeStyles.Some?
    ensures x.badgeStyles.Some? ==> m["ownerBadges"] == JArr(Badges(x.badgeStyles.value))
  {
    var withId := WithOptional(map[], "videoId", MapOption(x.videoId, s => JStr(s)));
    var withLength := WithOptional(withId, "lengthText", MapOption(x.lengthText, SimpleText));
    var withPublished := WithOptional(withLength, "publishedTimeText", MapOption(x.publishedText, SimpleText));
    WithOptional(withPublished, "ownerBadges",
                 match x.badgeStyles
                 case Some(styles) => Some(JArr(Badges(styles)))
                 case None => None)
  }

  /** The `videoRenderer` object with the fields of `x` */
  function RendererJson(x: VideoShape): Json {
    JObj(RequiredMembers(x) + OptionalMembers(x))
  }

  /** One entry of an item section: `{ videoRenderer: ... }` */
  function EntryJson(x: VideoShape): Json {
    JObj(map["videoRenderer" := RendererJson(x)])
  }

  function EntriesJson(xs: seq<VideoShape>): (r: seq<Json>)
    ensures |r| == |xs|
    ensures forall i :: 0 <= i < |xs| ==> r[i] == EntryJson(xs[i])
  {
    seq(|xs|, i requires 0 <= i < |xs| => EntryJson(xs[i]))
  }

  /** `{ itemSectionRenderer: { contents: entries } }` */
  function ItemSection(entries: seq<Json>): Json {
    JObj(map["itemSectionRenderer" := JObj(map["contents" := JArr(entries)])])
  }

  /** The decoded page data whose section list is `sections` */
  function PageJson(sections: seq<Json>): Json {
    JObj(map["contents" :=
      JObj(map["twoColumnSearchResultsRenderer" :=
        JObj(map["primaryContents" :=
          JObj(map["sectionListRenderer" :=
            JObj(map["contents" := JArr(sections)])])])])])
  }

  /** The members of `RendererJson(x)`, one by one */
  lemma RendererJsonFields(x: VideoShape)
    ensures var m := RendererJson(x).fields;
      && "title" in m && m["title"] == JObj(map["runs" := JArr(TextRuns(x.titleRuns))])
      && "navigationEndpoint" in m && m["navigationEndpoint"] == Endpoint(x.path)
      && "thumbnail" in m && m["thumbnail"] == Thumbnails(x.thumbnailUrls)
      && "ownerText" in m && m["ownerText"] == OwnerText(x.ownerName, x.ownerPath)
      && ("videoId" in m <==> x.videoId.Some?)
      && (x.videoId.Some? ==> m["videoId"] == JStr(x.videoId.value))
      && ("lengthText" in m <==> x.lengthText.Some?)
      && (x.lengthText.Some? ==> m["lengthText"] == SimpleText(x.lengthText.value))
      && ("publishedTimeText" in m <==> x.publishedText.Some?)
      && (x.publishedText.Some? ==> m["publishedTimeText"] == SimpleText(x.publishedText.value))
      && ("ownerBadges" in m <==> x.badgeStyles.Some?)
      && (x.badgeStyles.Some? ==> m["ownerBadges"] == JArr(Badges(x.badgeStyles.value)))
  {
    var required, optional := RequiredMembers(x), OptionalMembers(x);
    assert required.Keys !! optional.Keys;
    assert forall k :: k in required ==> (required + optional)[k] == required[k];
  }

  // --------------------------------------------- what a fragment holds

  /** `j` has the member `key` */
  predicate Has(j: Json, key: string) {
    j.JObj? && key in j.fields
  }

  /** `{ text: t, ... }` */
  predicate IsTextRun(j: Json, t: string) {
    Has(j, "text") && j.fields["text"] == JStr(t)
  }

  /** An array of runs whose texts are `ts`, in order */
  predicate IsRunList(j: Json, ts: seq<string>) {
    j.JArr? && |j.elems| == |ts| && forall i :: 0 <= i < |ts| ==> IsTextRun(j.elems[i], ts[i])
  }

  /** `{ commandMetadata: { webCommandMetadata: { url: path, ... }, ... }, ... }` */
  predicate IsEndpoint(j: Json, path: string) {
    Has(j, "commandMetadata") &&
    var meta := j.fields["commandMetadata"];
    Has(meta, "webCommandMetadata") &&
    var web := meta.fields["webCommandMetadata"];
    Has(web, "url") && web.fields["url"] == JStr(path)
  }

  /** `{ simpleText: s, ... }` */
  predicate IsSimpleText(j: Json, s: string) {
    Has(j, "simpleText") && j.fields["simpleText"] == JStr(s)
  }

  /** `{ thumbnails: [{ url: u0, ... }, { url: u1, ... }, ...], ... }` */
  predicate IsThumbnailList(j: Json, urls: seq<string>) {
    Has(j, "thumbnails") &&
    var list := j.fields["thumbnails"];
    list.JArr? && |list.elems| == |urls| &&
    forall i :: 0 <= i < |urls| ==> Has(list.elems[i], "url") && list.elems[i].fields["url"] == JStr(urls[i])
  }

  /** `{ metadataBadgeRenderer: { style: style, ... }, ... }` */
  predicate IsBadge(j: Json, style: string) {
    Has(j, "metadataBadgeRenderer") &&
    var badge := j.fields["metadataBadgeRenderer"];
    Has(badge, "style") && badge.fields["style"] == JStr(style)
  }

  /** An array of badges whose styles are `styles`, in order */
  predicate IsBadgeList(j: Json, styles: seq<string>) {
    j.JArr? && |j.elems| == |styles| && forall i :: 0 <= i < |styles| ==> IsBadge(j.elems[i], styles[i])
  }

  /** `{ runs: [{ text: name, navigationEndpoint: ..., ... }, ...], ... }` */
  predicate IsOwnerText(j: Json, name: string, path: string) {
    Has(j, "runs") &&
    var runs := j.fields["runs"];
    runs.JArr? && |runs.elems| > 0 &&
    IsTextRun(runs.elems[0], name) && Has(runs.elems[0], "navigationEndpoint") &&
    IsEndpoint(runs.elems[0].fields["navigationEndpoint"], path)
  }

  /** The member `key` of `m` is present exactly when `o` holds a value, and
      then satisfies `p` */
  predicate OptionalMember(m: map<string, Json>, key: string, o: Option<string>, p: (Json, string) -> bool) {
    match o
    case Some(s) => key in m && p(m[key], s)
    case None => key !in m
  }

  /** The members `m` of a `videoRenderer` object hold the fields of `x`:
      every member the record parser reads is there with the value `x` gives
      it, and an optional member is absent when its field is `None`. */
  predicate Describes(m: map<string, Json>, x: VideoShape) {
    && "title" in m && Has(m["title"], "runs") && IsRunList(m["title"].fields["runs"], x.titleRuns)
    && "navigationEndpoint" in m && IsEndpoint(m["navigationEndpoint"], x.path)
    && "thumbnail" in m && IsThumbnailList(m["thumbnail"], x.thumbnailUrls)
    && "ownerText" in m && IsOwnerText(m["ownerText"], x.ownerName, x.ownerPath)
    && OptionalMember(m, "videoId", x.videoId, (j, s) => j == JStr(s))
    && OptionalMember(m, "lengthText", x.lengthText, IsSimpleText)
    && OptionalMember(m, "publishedTimeText", x.publishedText, IsSimpleText)
    && (match x.badgeStyles
        case Some(styles) => "ownerBadges" in m && IsBadgeList(m["ownerBadges"], styles)
        case None => "ownerBadges" !in m)
  }

  /** `{ videoRenderer: { ... }, ... }` holding the fields of `x` */
  predicate DescribesEntry(entry: Json, x: VideoShape) {
    Has(entry, "videoRenderer") && entry.fields["videoRenderer"].JObj? && Describes(entry.fields["videoRenderer"].fields, x)
  }

  predicate DescribesEntries(entries: seq<Json>, xs: seq<VideoShape>) {
    |entries| == |xs| && forall i :: 0 <= i < |xs| ==> DescribesEntry(entries[i], xs[i])
  }

  /** `{ itemSectionRenderer: { contents: [...], ... }, ... }`, without an own
      `hasOwnProperty` member */
  predicate IsItemSection(section: Json) {
    Has(section, "itemSectionRenderer") && !Has(section, "hasOwnProperty") &&
    var renderer := section.fields["itemSectionRenderer"];
    Has(renderer, "contents") && renderer.fields["contents"].JArr?
  }

  function SectionEntries(section: Json): seq<Json>
    requires IsItemSection(section)
  {
    section.fields["itemSectionRenderer"].fields["contents"].elems
  }

  /** A section of another kind: an object with neither an `itemSectionRenderer`
      nor an own `hasOwnProperty` member */
  predicate IsOtherSection(section: Json) {
    section.JObj? && !Has(section, "itemSectionRenderer") && !Has(section, "hasOwnProperty")
  }

  /** `section` contributes the videos `xs`: it is an item section whose
      entries hold them, or a section of another kind and `xs` is empty. */
  predicate DescribesSection(section: Json, xs: seq<VideoShape>) {
    || (IsItemSection(section) && DescribesEntries(SectionEntries(section), xs))
    || (IsOtherSection(section) && xs == [])
  }

  /** `data.contents.twoColumnSearchResultsRenderer.primaryContents.sectionListRenderer.contents`
      is the array `sections` */
  predicate DescribesPage(data: Json, sections: seq<Json>) {
    Has(data, "contents") &&
    var contents := data.fields["contents"];
    Has(contents, "twoColumnSearchResultsRenderer") &&
    var results := contents.fields["twoColumnSearchResultsRenderer"];
    Has(results, "primaryContents") &&
    var primary := results.fields["primaryContents"];
    Has(primary, "sectionListRenderer") &&
    var sectionList := primary.fields["sectionListRenderer"];
    Has(sectionList, "contents") && sectionList.fields["contents"] == JArr(sections)
  }

  // ------------------------------------- the builders meet the predicates

  lemma RendererJsonDescribes(x: VideoShape)
    ensures Describes(RendererJson(x).fields, x)
  {
    RendererJsonFields(x);
    BuiltPartsDescribe(x);
  }

  lemma BuiltPartsDescribe(x: VideoShape)
    ensures IsRunList(JArr(TextRuns(x.titleRuns)), x.titleRuns)
    ensures IsEndpoint(Endpoint(x.path), x.path)
    ensures IsThumbnailList(Thumbnails(x.thumbnailUrls), x.thumbnailUrls)
    ensures IsOwnerText(OwnerText(x.ownerName, x.ownerPath), x.ownerName, x.ownerPath)
    ensures x.lengthText.Some? ==> IsSimpleText(SimpleText(x.lengthText.value), x.lengthText.value)
    ensures x.publishedText.Some? ==> IsSimpleText(SimpleText(x.publishedText.value), x.publishedText.value)
    ensures x.badgeStyles.Some? ==> IsBadgeList(JArr(Badges(x.badgeStyles.value)), x.badgeStyles.value)
  {
  }

  lemma {:induction false} EntriesJsonDescribe(xs: seq<VideoShape>)
    ensures DescribesEntries(EntriesJson(xs), xs)
  {
    forall i | 0 <= i < |xs|
      ensures DescribesEntry(EntriesJson(xs)[i], xs[i])
    {
      RendererJsonDescribes(xs[i]);
    }
  }

  lemma ItemSectionIsItemSection(entries: seq<Json>)
    ensures IsItemSection(ItemSection(entries)) && SectionEntries(ItemSection(entries)) == entries
  {
  }

  lemma PageJsonDescribes(sections: seq<Json>)
    ensures DescribesPage(PageJson(sections), sections)
  {
  }
}

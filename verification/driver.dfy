/** The pipeline driver: the body of the request callback in `youtube`
    (scraper.js:14-40). The HTTP fetch, the two locating regular expressions
    and `JSON.parse` are parameters: `error` and `statusCode` are what the
    HTTP client reports, `primary` and `fallback` return the group each
    pattern captures from the page (or `None` when it does not match), and
    `parse` returns the decoded value (or `None` when `JSON.parse` throws).
 */
module Driver {
  import opened Wrappers
  import opened Js
  import opened Pages
  import opened Renderer
  import opened Sections

  /** Records kept per item section */
  const Limit: nat := 15
  const SearchBase: string := "https://www.youtube.com/results?q="
  /** Restricts the search to short videos */
  const ShortVideoFilter: string := "&sp=EgQQARgB"

  /** What the returned promise resolves to */
  datatype Envelope<E> =
    | Found(results: seq<Item>, version: string)
    | Errored(error: Option<E>)

  /** How the callback ends: it resolves the promise, or an exception escapes
      it uncaught (by default ending the process) and the promise never
      settles. */
  datatype Outcome<E> = Resolved(envelope: Envelope<E>) | Uncaught(exception: JsError)

  /** The URL fetched for `query`; `encode` stands for `encodeURIComponent`.
      The encoded query sits between the fixed base and the fixed filter. */
  function SearchUrl(query: string, encode: string -> string): (url: string)
    ensures |url| == |SearchBase| + |encode(query)| + |ShortVideoFilter|
    ensures url[..|SearchBase|] == SearchBase
    ensures url[|SearchBase|..|url| - |ShortVideoFilter|] == encode(query)
    ensures url[|url| - |ShortVideoFilter|..] == ShortVideoFilter
  {
    SearchBase + encode(query) + ShortVideoFilter
  }

  /** The text handed to `JSON.parse`: the primary pattern's group when it
      matches, otherwise the fallback pattern's. */
  function Locate(html: string, primary: string -> Option<string>, fallback: string -> Option<string>): (r: Option<string>)
    ensures r.Some? <==> primary(html).Some? || fallback(html).Some?
    ensures primary(html).Some? ==> r == primary(html)
    ensures primary(html).None? ==> r == fallback(html)
  {
    match primary(html)
    case Some(text) => Some(text)
    case None => fallback(html)
  }

  /** The members read, in order, from the decoded page to its section list */
  const NavigationPath: seq<string> :=
    ["contents", "twoColumnSearchResultsRenderer", "primaryContents", "sectionListRenderer", "contents"]

  /** `data.contents.twoColumnSearchResultsRenderer.primaryContents.sectionListRenderer.contents`.
      It throws exactly when a link before the last is missing (or `null`);
      a missing last member gives `undefined` without throwing. */
  function Navigate(data: Json): (r: Completion<Val>)
    ensures r == Follow(Value(data), NavigationPath)
    ensures r.Failure? <==> exists k :: BrokenAt(Value(data), NavigationPath, k)
    ensures data.JObj? && "contents" !in data.fields ==> r.Failure?
  {
    FollowThrowsAtBrokenLink(Value(data), NavigationPath);
    var contents :- Prop(Value(data), "contents");
    var results :- Prop(contents, "twoColumnSearchResultsRenderer");
    var primaryContents :- Prop(results, "primaryContents");
    var sectionList :- Prop(primaryContents, "sectionListRenderer");
    Prop(sectionList, "contents")
  }

  /** The value of `sectionLists` after the `try` block: `[]` when the page
      text is not located (`match[1]` of null throws), does not decode, or a
      link of the navigation chain is missing; otherwise what `Navigate`
      reached. */
  function SectionLists(located: Option<string>, parse: string -> Option<Json>): (v: Val)
    ensures located.None? ==> v == Value(JArr([]))
    ensures located.Some? && parse(located.value).None? ==> v == Value(JArr([]))
    ensures located.Some? && parse(located.value).Some? ==> v == Navigate(parse(located.value).value).GetOr(Value(JArr([])))
  {
    match located
    case None => Value(JArr([]))
    case Some(text) =>
      match parse(text)
      case None => Value(JArr([]))
      case Some(data) => Navigate(data).GetOr(Value(JArr([])))
  }

  /** The request callback as written. With no transport error and status
      200 it runs the section parser on `sectionLists` and resolves
      `{ results, version }`; the parser's own exception is outside the
      `try`, so a `sectionLists` that is not an array escapes. Otherwise it
      resolves `{ error }`, with the (possibly null) transport error. */
  function Respond<E>(
    error: Option<E>, statusCode: int, html: string,
    primary: string -> Option<string>, fallback: string -> Option<string>,
    parse: string -> Option<Json>, version: string): (r: Outcome<E>)
    ensures r == Resolved(Errored(error)) <==> error.Some? || statusCode != 200
    ensures r.Resolved? && r.envelope.Found? ==> r.envelope.version == version
    ensures error.None? && statusCode == 200 && Locate(html, primary, fallback).None? ==> r == Resolved(Found([], version))
    ensures r.Uncaught? <==>
              && error.None? && statusCode == 200
              && var v := SectionLists(Locate(html, primary, fallback), parse);
                 !(v.Value? && v.json.JArr?)
    ensures r.Resolved? && r.envelope.Found? ==>
              var v := SectionLists(Locate(html, primary, fallback), parse);
              v.Value? && v.json.JArr? && r.envelope.results == AllSectionItems(v.json.elems, Limit)
    ensures error.None? && statusCode == 200 &&
            (var v := SectionLists(Locate(html, primary, fallback), parse); v.Value? && v.json.JArr?) ==>
              r == Resolved(Found(AllSectionItems(SectionLists(Locate(html, primary, fallback), parse).json.elems, Limit), version))
  {
    if error.None? && statusCode == 200 then
      var sectionLists := SectionLists(Locate(html, primary, fallback), parse);
      match ParseJsonFormat(sectionLists, [], Limit)
      case Success(results) =>
        FoldIsConcatenation([], sectionLists.json.elems, Limit);
        Resolved(Found(results, version))
      case Failure(e) => Uncaught(e)
    else Resolved(Errored(error))
  }

  /** The callback with the evident intent carried through: a section list
      that is not an array degrades to no results, like every other failure
      to reach the sections. It always resolves. */
  function RespondGuarded<E>(
    error: Option<E>, statusCode: int, html: string,
    primary: string -> Option<string>, fallback: string -> Option<string>,
    parse: string -> Option<Json>, version: string): (env: Envelope<E>)
    ensures env.Found? <==> error.None? && statusCode == 200
    ensures env.Errored? ==> env.error == error
    ensures env.Found? ==> env.version == version
    ensures env.Found? ==>
              var v := SectionLists(Locate(html, primary, fallback), parse);
              env.results == if v.Value? && v.json.JArr? then AllSectionItems(v.json.elems, Limit) else []
  {
    if error.None? && statusCode == 200 then
      var sectionLists := SectionLists(Locate(html, primary, fallback), parse);
      match ParseJsonFormat(sectionLists, [], Limit)
      case Success(results) =>
        FoldIsConcatenation([], sectionLists.json.elems, Limit);
        Found(results, version)
      case Failure(_) => Found([], version)
    else Errored(error)
  }

  // ---------------------------------------------------------------- lemmas

  /** On a page whose navigation chain leads to the array `sections`,
      whatever other members it has, `Navigate` finds them */
  lemma NavigateFindsSections(data: Json, sections: seq<Json>)
    requires DescribesPage(data, sections)
    ensures Navigate(data) == Success(Value(JArr(sections)))
  {
  }

  /** A missing (or `null`) link before the last one of the navigation chain
      makes the chain throw, and the callback then parses an empty section
      list. */
  lemma MissingLinkGivesNoResults<E>(
    html: string, primary: string -> Option<string>, fallback: string -> Option<string>,
    parse: string -> Option<Json>, version: string, text: string, data: Json, k: nat)
    requires Locate(html, primary, fallback) == Some(text) && parse(text) == Some(data)
    requires BrokenAt(Value(data), NavigationPath, k)
    ensures Respond<E>(None, 200, html, primary, fallback, parse, version) == Resolved(Found([], version))
  {
    assert Navigate(data).Failure?;
  }

  /** The decoded page of the as-written failure: a `sectionListRenderer`
      without `contents` */
  function PageWithoutSectionContents(): Json {
    JObj(map["contents" :=
      JObj(map["twoColumnSearchResultsRenderer" :=
        JObj(map["primaryContents" :=
          JObj(map["sectionListRenderer" := JObj(map[])])])])])
  }

  /** As written, a page whose `sectionListRenderer` has no `contents` makes
      `contents.forEach` throw outside any `try`: the callback never
      resolves. The guarded callback resolves it to no results. */
  lemma SectionListWithoutContentsEscapes()
    ensures Respond<string>(None, 200, "<html>", _ => Some("{}"), _ => None, _ => Some(PageWithoutSectionContents()), "1.0").Uncaught?
    ensures RespondGuarded<string>(None, 200, "<html>", _ => Some("{}"), _ => None, _ => Some(PageWithoutSectionContents()), "1.0") == Found([], "1.0")
  {
    assert Navigate(PageWithoutSectionContents()) == Success(Undefined);
  }

  /** End to end: a page whose sections hold the well-formed videos `xss`,
      whatever other members its objects carry, resolves to the records of
      the first `Limit` videos of each section, in page order, each of type
      "video". */
  lemma WellFormedPageResolves<E>(
    html: string, primary: string -> Option<string>, fallback: string -> Option<string>,
    parse: string -> Option<Json>, version: string, text: string,
    data: Json, sections: seq<Json>, xss: seq<seq<VideoShape>>)
    requires Locate(html, primary, fallback) == Some(text) && parse(text) == Some(data)
    requires DescribesPage(data, sections)
    requires |sections| == |xss|
    requires forall i :: 0 <= i < |xss| ==> DescribesSection(sections[i], xss[i])
    requires forall i, j :: 0 <= i < |xss| && 0 <= j < |xss[i]| ==> |xss[i][j].thumbnailUrls| > 0
    ensures Respond<E>(None, 200, html, primary, fallback, parse, version) == Resolved(Found(ExpectedSections(xss, Limit), version))
    ensures forall i :: 0 <= i < |ExpectedSections(xss, Limit)| ==> ExpectedSections(xss, Limit)[i].content.kind == "video"
  {
    NavigateFindsSections(data, sections);
    assert SectionLists(Locate(html, primary, fallback), parse) == Value(JArr(sections));
    WellFormedSectionsItems(sections, xss, Limit);
    ExpectedSectionsAreVideos(xss, Limit);
  }

  /** A page built around one item section of well-formed videos meets the
      requirements of `WellFormedPageResolves`; with at most `Limit` videos,
      the records it promises are exactly theirs. */
  lemma BuiltPageIsWellFormed(xs: seq<VideoShape>)
    ensures var section := ItemSection(EntriesJson(xs));
            DescribesPage(PageJson([section]), [section]) && DescribesSection(section, xs)
  {
    PageJsonDescribes([ItemSection(EntriesJson(xs))]);
    ItemSectionIsItemSection(EntriesJson(xs));
    EntriesJsonDescribe(xs);
  }

  lemma OneSectionExpected(xs: seq<VideoShape>)
    requires |xs| <= Limit
    requires forall i :: 0 <= i < |xs| ==> |xs[i].thumbnailUrls| > 0
    ensures forall i, j :: 0 <= i < |[xs]| && 0 <= j < |[xs][i]| ==> |[xs][i][j].thumbnailUrls| > 0
    ensures ExpectedSections([xs], Limit) == ExpectedAll(xs)
  {
    assert xs[..Attempted(Limit, |xs|)] == xs;
    assert [xs][1..] == [];
  }

  /** End to end, on the smallest real page: one item section listing at
      most `Limit` well-formed videos resolves to exactly one "video" record
      per video, in order. */
  lemma OneSectionPageResolves<E>(
    html: string, primary: string -> Option<string>, fallback: string -> Option<string>,
    parse: string -> Option<Json>, version: string, text: string, xs: seq<VideoShape>)
    requires Locate(html, primary, fallback) == Some(text)
    requires parse(text) == Some(PageJson([ItemSection(EntriesJson(xs))]))
    requires |xs| <= Limit
    requires forall i :: 0 <= i < |xs| ==> |xs[i].thumbnailUrls| > 0
    ensures Respond<E>(None, 200, html, primary, fallback, parse, version) == Resolved(Found(ExpectedAll(xs), version))
    ensures |ExpectedAll(xs)| == |xs|
    ensures forall i :: 0 <= i < |xs| ==> ExpectedAll(xs)[i] == Expected(xs[i]) && ExpectedAll(xs)[i].content.kind == "video"
  {
    OneSectionFound<E>(html, primary, fallback, parse, version, text, PageJson([ItemSection(EntriesJson(xs))]), ItemSection(EntriesJson(xs)), xs);
    ExpectedAllElements(xs);
  }

  /** `OneSectionPageResolves`' first conclusion, with the page and its
      section named */
  lemma OneSectionFound<E>(
    html: string, primary: string -> Option<string>, fallback: string -> Option<string>,
    parse: string -> Option<Json>, version: string, text: string, data: Json, section: Json, xs: seq<VideoShape>)
    requires Locate(html, primary, fallback) == Some(text) && parse(text) == Some(data)
    requires data == PageJson([section]) && section == ItemSection(EntriesJson(xs))
    requires |xs| <= Limit
    requires forall i :: 0 <= i < |xs| ==> |xs[i].thumbnailUrls| > 0
    ensures Respond<E>(None, 200, html, primary, fallback, parse, version) == Resolved(Found(ExpectedAll(xs), version))
  {
    BuiltPageIsWellFormed(xs);
    SingleSectionDescribed(section, xs);
    OneSectionExpected(xs);
    WellFormedPageResolves<E>(html, primary, fallback, parse, version, text, data, [section], [xs]);
  }

  /** A described section, alone, lists the videos of a one-section page */
  lemma SingleSectionDescribed(section: Json, xs: seq<VideoShape>)
    requires DescribesSection(section, xs)
    ensures forall i :: 0 <= i < |[xs]| ==> DescribesSection([section][i], [xs][i])
  {
  }

  lemma {:induction false} ExpectedSectionsAreVideos(xss: seq<seq<VideoShape>>, limit: nat)
    requires forall i, j :: 0 <= i < |xss| && 0 <= j < |xss[i]| ==> |xss[i][j].thumbnailUrls| > 0
    ensures forall i :: 0 <= i < |ExpectedSections(xss, limit)| ==> ExpectedSections(xss, limit)[i].content.kind == "video"
    decreases |xss|
  {
    if |xss| > 0 {
      var xs := xss[0][..Attempted(limit, |xss[0]|)];
      ExpectedAllElements(xs);
      ExpectedSectionsAreVideos(xss[1..], limit);
    }
  }
}

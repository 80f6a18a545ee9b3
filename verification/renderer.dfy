/** The record parser: `parseVideoRenderer` and its reducer `comb`
    (scraper.js:78-109). It maps one loosely-typed `videoRenderer` object to
    a `{ content, uploader }` record, or throws.
 */
module Renderer {
  import opened Wrappers
  import opened Js
  import opened Pages

  /** Prefix of both `url` fields */
  const Origin: string := "https://www.youtube.com"
  /** Duration and upload date of an item that has none */
  const Live: string := "Live"
  /** Marker looked for in a badge's style */
  const VerifiedMark: string := "VERIFIED"

  /** The `content` record. Fields copied as they are from the page (`id`,
      `duration`, `upload_date`, `thumbnail_src`) are JavaScript values: they
      can be `undefined`, or not strings at all. */
  datatype Video = Video(
    kind: string,
    id: Val,
    title: string,
    url: string,
    duration: Val,
    uploadDate: Val,
    thumbnailSrc: Val)

  /** The `uploader` record */
  datatype Uploader = Uploader(username: Val, url: string, verified: bool)

  /** One element of `results` */
  datatype Item = Item(content: Video, uploader: Uploader)

  predicate StartsWith(s: string, prefix: string) {
    |prefix| <= |s| && s[..|prefix|] == prefix
  }

  // ---------------------------------------------------------------- title

  /** `comb(acc, run)`: `acc + run.text` */
  function Comb(acc: string, run: Json): (r: Completion<string>)
    ensures r.Success? ==> StartsWith(r.value, acc)
    ensures run == JNull ==> r.Failure?
  {
    var text :- Prop(Value(run), "text");
    var s :- ToStr(text);
    Success(acc + s)
  }

  /** `runs.reduce(comb, acc)`, left to right */
  function ReduceComb(acc: string, runs: seq<Json>): (r: Completion<string>)
    decreases |runs|
    ensures r.Success? ==> StartsWith(r.value, acc)
  {
    if |runs| == 0 then Success(acc)
    else
      var acc' :- Comb(acc, runs[0]);
      ReduceComb(acc', runs[1..])
  }

  /** `renderer.title.runs.reduce(comb, "")`; a `runs` that is not an array
      has no `reduce` to call. */
  function Title(renderer: Val): (r: Completion<string>)
    ensures Nullish(renderer) ==> r.Failure?
    ensures r.Success? ==>
              && renderer.Value? && Has(renderer.json, "title") && Has(renderer.json.fields["title"], "runs")
              && renderer.json.fields["title"].fields["runs"].JArr?
  {
    var title :- Prop(renderer, "title");
    var runs :- Prop(title, "runs");
    if runs.Value? && runs.json.JArr? then ReduceComb("", runs.json.elems)
    else Failure(TypeError("runs.reduce is not a function"))
  }

  // ------------------------------------------------------- other fields

  /** `https://www.youtube.com${holder.navigationEndpoint.commandMetadata.webCommandMetadata.url}` */
  function WebUrl(holder: Val): (r: Completion<string>)
    ensures r.Success? ==> StartsWith(r.value, Origin)
  {
    var endpoint :- Prop(holder, "navigationEndpoint");
    var meta :- Prop(endpoint, "commandMetadata");
    var web :- Prop(meta, "webCommandMetadata");
    var path :- Prop(web, "url");
    var p :- ToStr(path);
    Success(Origin + p)
  }

  /** `renderer[field] ? renderer[field].simpleText : "Live"` */
  function TextOrLive(renderer: Val, field: string): (r: Completion<Val>)
    ensures Prop(renderer, field) == Success(Undefined) ==> r == Success(Value(JStr(Live)))
  {
    var f :- Prop(renderer, field);
    if Truthy(f) then Prop(f, "simpleText") else Success(Value(JStr(Live)))
  }

  /** `renderer.thumbnail.thumbnails[renderer.thumbnail.thumbnails.length - 1].url` */
  function LastThumbnailUrl(renderer: Val): (r: Completion<Val>)
    ensures Nullish(renderer) ==> r.Failure?
    ensures renderer.Value? && Has(renderer.json, "thumbnail") && Has(renderer.json.fields["thumbnail"], "thumbnails")
            && renderer.json.fields["thumbnail"].fields["thumbnails"].JArr? ==>
              var list := renderer.json.fields["thumbnail"].fields["thumbnails"].elems;
              && (|list| == 0 ==> r.Failure?)
              && (|list| > 0 ==> r == Prop(Value(list[|list| - 1]), "url"))
  {
    var thumbnail :- Prop(renderer, "thumbnail");
    var thumbnails :- Prop(thumbnail, "thumbnails");
    var last :- Last(thumbnails);
    Prop(last, "url")
  }

  /** The uploader's name and channel URL: `renderer.ownerText.runs[0].text`
      and the URL of `renderer.ownerText.runs[0]` */
  function Owner(renderer: Val): (r: Completion<(Val, string)>)
    ensures r.Success? ==> StartsWith(r.value.1, Origin)
  {
    var owner :- Prop(renderer, "ownerText");
    var ownerRuns :- Prop(owner, "runs");
    var firstRun :- First(ownerRuns);
    var username :- Prop(firstRun, "text");
    var url :- WebUrl(firstRun);
    Success((username, url))
  }

  // ------------------------------------------------------------ verified

  /** `style.indexOf("VERIFIED") > -1`: a substring test on a string, a
      strict-equality element search on an array; any other value has no
      `indexOf` to call. */
  function StyleMentionsVerified(style: Val): (r: Completion<bool>)
    ensures style.Value? && style.json.JStr? ==> r == Success(Contains(style.json.s, VerifiedMark))
    ensures style.Value? && style.json.JArr? ==> r == Success(JStr(VerifiedMark) in style.json.elems)
    ensures r.Success? <==> style.Value? && (style.json.JStr? || style.json.JArr?)
  {
    match style
    case Value(JStr(s)) =>
      IndexOfFindsSubstring(s, VerifiedMark);
      Success(IndexOf(s, VerifiedMark, 0) > -1)
    case Value(JArr(a)) => Success(JStr(VerifiedMark) in a)
    case _ => Failure(TypeError("style.indexOf is not a function"))
  }

  /** The predicate given to `some`: `badge.metadataBadgeRenderer.style.indexOf("VERIFIED") > -1` */
  function IsVerifiedBadge(badge: Json): (r: Completion<bool>)
    ensures badge == JNull ==> r.Failure?
    ensures r.Success? ==> Has(badge, "metadataBadgeRenderer")
    ensures PlainBadge(badge) ==> r == Success(Contains(BadgeStyle(badge), VerifiedMark))
  {
    var badgeRenderer :- Prop(Value(badge), "metadataBadgeRenderer");
    var style :- Prop(badgeRenderer, "style");
    StyleMentionsVerified(style)
  }

  /** `badges.some(IsVerifiedBadge)`: stops at the first badge that passes */
  function SomeVerified(badges: seq<Json>): (r: Completion<bool>)
    decreases |badges|
    ensures r == Success(false) <==> forall i :: 0 <= i < |badges| ==> IsVerifiedBadge(badges[i]) == Success(false)
    ensures r == Success(true) ==> exists i :: 0 <= i < |badges| && IsVerifiedBadge(badges[i]) == Success(true)
    ensures r.Failure? ==> exists i :: 0 <= i < |badges| && IsVerifiedBadge(badges[i]).Failure?
  {
    if |badges| == 0 then Success(false)
    else
      var hit :- IsVerifiedBadge(badges[0]);
      if hit then Success(true) else SomeVerified(badges[1..])
  }

  /** `renderer.ownerBadges && renderer.ownerBadges.some(...) || false`:
      always a boolean. A falsy `ownerBadges` gives false; a truthy one that is
      not an array has no `some` to call. */
  function Verified(renderer: Val): (r: Completion<bool>)
    ensures Prop(renderer, "ownerBadges") == Success(Undefined) ==> r == Success(false)
    ensures Prop(renderer, "ownerBadges") == Success(Value(JArr([]))) ==> r == Success(false)
    ensures r == Success(true) ==> exists a :: Prop(renderer, "ownerBadges") == Success(Value(JArr(a))) && |a| > 0
  {
    var badges :- Prop(renderer, "ownerBadges");
    if !Truthy(badges) then Success(false)
    else if badges.json.JArr? then SomeVerified(badges.json.elems)
    else Failure(TypeError("ownerBadges.some is not a function"))
  }

  // --------------------------------------------------------------- record

  /** `parseVideoRenderer(renderer)` */
  function ParseVideoRenderer(renderer: Val): (r: Completion<Item>)
    ensures Nullish(renderer) ==> r.Failure?
    ensures r.Success? ==> r.value.content.kind == "video"
    ensures r.Success? ==> Prop(renderer, "videoId") == Success(r.value.content.id)
    ensures r.Success? ==> StartsWith(r.value.content.url, Origin) && StartsWith(r.value.uploader.url, Origin)
    ensures r.Success? ==> Title(renderer) == Success(r.value.content.title)
    ensures r.Success? ==> LastThumbnailUrl(renderer) == Success(r.value.content.thumbnailSrc)
  {
    var id :- Prop(renderer, "videoId");
    var title :- Title(renderer);
    var url :- WebUrl(renderer);
    var duration :- TextOrLive(renderer, "lengthText");
    var uploadDate :- TextOrLive(renderer, "publishedTimeText");
    var thumbnail :- LastThumbnailUrl(renderer);
    var owner :- Owner(renderer);
    var verified :- Verified(renderer);
    Success(Item(
      Video("video", id, title, url, duration, uploadDate, thumbnail),
      Uploader(owner.0, owner.1, verified)))
  }

  // ------------------------------------------------- reference definitions

  /** The texts of `ts`, concatenated in order */
  ghost function Concat(ts: seq<string>): string {
    if |ts| == 0 then "" else ts[0] + Concat(ts[1..])
  }

  /** A title run whose `text` is a string */
  ghost predicate PlainRun(run: Json) {
    run.JObj? && "text" in run.fields && run.fields["text"].JStr?
  }

  ghost function RunText(run: Json): string
    requires PlainRun(run)
  {
    run.fields["text"].s
  }

  ghost function RunTexts(runs: seq<Json>): (ts: seq<string>)
    requires forall i :: 0 <= i < |runs| ==> PlainRun(runs[i])
    ensures |ts| == |runs|
  {
    if |runs| == 0 then [] else [RunText(runs[0])] + RunTexts(runs[1..])
  }

  /** A badge whose `metadataBadgeRenderer.style` is a string */
  ghost predicate PlainBadge(badge: Json) {
    && badge.JObj? && "metadataBadgeRenderer" in badge.fields
    && badge.fields["metadataBadgeRenderer"].JObj?
    && "style" in badge.fields["metadataBadgeRenderer"].fields
    && badge.fields["metadataBadgeRenderer"].fields["style"].JStr?
  }

  ghost function BadgeStyle(badge: Json): string
    requires PlainBadge(badge)
  {
    badge.fields["metadataBadgeRenderer"].fields["style"].s
  }

  /** What a well-formed renderer with fields `x` should yield: the title
      runs joined, both paths behind the origin, "Live" for a missing length
      or publication text, the last thumbnail, and a verified flag that holds
      iff some badge style contains "VERIFIED". */
  ghost function Expected(x: VideoShape): Item
    requires |x.thumbnailUrls| > 0
  {
    Item(
      Video(
        "video",
        match x.videoId case Some(v) => Value(JStr(v)) case None => Undefined,
        Concat(x.titleRuns),
        Origin + x.path,
        Value(JStr(match x.lengthText case Some(t) => t case None => Live)),
        Value(JStr(match x.publishedText case Some(t) => t case None => Live)),
        Value(JStr(x.thumbnailUrls[|x.thumbnailUrls| - 1]))),
      Uploader(
        Value(JStr(x.ownerName)),
        Origin + x.ownerPath,
        x.badgeStyles.Some? && exists i :: 0 <= i < |x.badgeStyles.value| && Contains(x.badgeStyles.value[i], VerifiedMark)))
  }

  // ---------------------------------------------------------------- lemmas

  /** Reducing string-text runs with `comb` appends their texts in order */
  lemma {:induction false} ReduceCombConcatenates(acc: string, runs: seq<Json>)
    requires forall i :: 0 <= i < |runs| ==> PlainRun(runs[i])
    ensures ReduceComb(acc, runs) == Success(acc + Concat(RunTexts(runs)))
    decreases |runs|
  {
    if |runs| == 0 {
      assert acc + Concat(RunTexts(runs)) == acc;
    } else {
      var t := RunText(runs[0]);
      assert Comb(acc, runs[0]) == Success(acc + t);
      assert ReduceComb(acc, runs) == ReduceComb(acc + t, runs[1..]);
      ReduceCombConcatenates(acc + t, runs[1..]);
      var rest := RunTexts(runs[1..]);
      assert RunTexts(runs) == [t] + rest;
      assert ([t] + rest)[1..] == rest;
      assert Concat(RunTexts(runs)) == t + Concat(rest);
      assert acc + t + Concat(rest) == acc + (t + Concat(rest));
    }
  }

  /** A title whose run list is empty is the empty string */
  lemma EmptyRunsGiveEmptyTitle(renderer: Val, title: Val)
    requires Prop(renderer, "title") == Success(title)
    requires Prop(title, "runs") == Success(Value(JArr([])))
    ensures Title(renderer) == Success("")
  {
  }

  /** The runs of a run list are plain, and their texts are the list's */
  lemma {:induction false} RunTextsOfRunList(j: Json, ts: seq<string>)
    requires IsRunList(j, ts)
    ensures forall i :: 0 <= i < |j.elems| ==> PlainRun(j.elems[i])
    ensures RunTexts(j.elems) == ts
    decreases |ts|
  {
    if |ts| > 0 {
      RunTextsOfRunList(JArr(j.elems[1..]), ts[1..]);
    }
  }

  /** `some` scans left to right: once a prefix of the badge list has
      decided the answer (a verified badge, or a badge that throws), the
      rest of the list is never looked at. */
  lemma {:induction false} SomeVerifiedComposes(a: seq<Json>, b: seq<Json>)
    ensures SomeVerified(a + b) == if SomeVerified(a) == Success(false) then SomeVerified(b) else SomeVerified(a)
  {
    if |a| == 0 {
      assert a + b == b;
    } else {
      assert (a + b)[0] == a[0];
      assert (a + b)[1..] == a[1..] + b;
      SomeVerifiedComposes(a[1..], b);
    }
  }

  /** On badges with string styles, the verified test is a substring test:
      it holds iff some badge's style contains "VERIFIED". */
  lemma {:induction false} SomeVerifiedOfPlainBadges(badges: seq<Json>)
    requires forall i :: 0 <= i < |badges| ==> PlainBadge(badges[i])
    ensures SomeVerified(badges) == Success(exists i :: 0 <= i < |badges| && Contains(BadgeStyle(badges[i]), VerifiedMark))
  {
    if |badges| > 0 {
      var style := BadgeStyle(badges[0]);
      IndexOfFindsSubstring(style, VerifiedMark);
      assert IsVerifiedBadge(badges[0]) == Success(Contains(style, VerifiedMark));
      SomeVerifiedOfPlainBadges(badges[1..]);
      if !Contains(style, VerifiedMark) {
        if exists i :: 0 <= i < |badges| && Contains(BadgeStyle(badges[i]), VerifiedMark) {
          var i :| 0 <= i < |badges| && Contains(BadgeStyle(badges[i]), VerifiedMark);
          assert badges[1..][i - 1] == badges[i];
        }
      }
    }
  }

  /** A missing `videoId` does not make the item fail: the record is the one
      the renderer with a `videoId` gives, with `id` undefined. */
  lemma MissingVideoIdClearsOnlyTheId(m: map<string, Json>)
    ensures var withId := ParseVideoRenderer(Value(JObj(m)));
            var without := ParseVideoRenderer(Value(JObj(m - {"videoId"})));
            && (without.Success? <==> withId.Success?)
            && (without.Success? ==>
                  without.value == withId.value.(content := withId.value.content.(id := Undefined)))
  {
    OtherFieldsIgnoreTheId(m);
    assert Prop(Value(JObj(m - {"videoId"})), "videoId") == Success(Undefined);
  }

  /** Every part of the record but `id` is read from members other than `videoId` */
  lemma OtherFieldsIgnoreTheId(m: map<string, Json>)
    ensures var v, v' := Value(JObj(m)), Value(JObj(m - {"videoId"}));
            && Title(v') == Title(v) && WebUrl(v') == WebUrl(v)
            && TextOrLive(v', "lengthText") == TextOrLive(v, "lengthText")
            && TextOrLive(v', "publishedTimeText") == TextOrLive(v, "publishedTimeText")
            && LastThumbnailUrl(v') == LastThumbnailUrl(v)
            && Owner(v') == Owner(v) && Verified(v') == Verified(v)
  {
    var v, v' := Value(JObj(m)), Value(JObj(m - {"videoId"}));
    SameMembers(v, v', "title");
    SameMembers(v, v', "navigationEndpoint");
    SameMembers(v, v', "lengthText");
    SameMembers(v, v', "publishedTimeText");
    SameMembers(v, v', "thumbnail");
    SameMembers(v, v', "ownerText");
    SameMembers(v, v', "ownerBadges");
  }

  lemma SameMembers(v: Val, v': Val, key: string)
    requires v.Value? && v.json.JObj? && v'.Value? && v'.json.JObj?
    requires key in v.json.fields <==> key in v'.json.fields
    requires key in v.json.fields ==> v.json.fields[key] == v'.json.fields[key]
    ensures Prop(v, key) == Prop(v', key)
  {
  }

  /** An empty thumbnail list makes the item fail: `thumbnails[-1]` is
      undefined and its `url` cannot be read. */
  lemma EmptyThumbnailListFails(renderer: Val, thumbnail: Val)
    requires Prop(renderer, "thumbnail") == Success(thumbnail)
    requires Prop(thumbnail, "thumbnails") == Success(Value(JArr([])))
    ensures ParseVideoRenderer(renderer).Failure?
  {
  }

  /** The title of a renderer holding the fields of `x` is its run texts, concatenated */
  lemma TitleOfShape(m: map<string, Json>, x: VideoShape)
    requires Describes(m, x)
    ensures Title(Value(JObj(m))) == Success(Concat(x.titleRuns))
  {
    var runs := m["title"].fields["runs"];
    RunTextsOfRunList(runs, x.titleRuns);
    ReduceCombConcatenates("", runs.elems);
  }

  lemma WebUrlOfShape(m: map<string, Json>, x: VideoShape)
    requires Describes(m, x)
    ensures WebUrl(Value(JObj(m))) == Success(Origin + x.path)
  {
  }

  lemma OwnerOfShape(m: map<string, Json>, x: VideoShape)
    requires Describes(m, x)
    ensures Owner(Value(JObj(m))) == Success((Value(JStr(x.ownerName)), Origin + x.ownerPath))
  {
    var run := m["ownerText"].fields["runs"].elems[0];
    assert WebUrl(Value(run)) == Success(Origin + x.ownerPath);
  }

  lemma TextOrLiveOfShape(m: map<string, Json>, x: VideoShape)
    requires Describes(m, x)
    ensures TextOrLive(Value(JObj(m)), "lengthText") == Success(Value(JStr(match x.lengthText case Some(t) => t case None => Live)))
    ensures TextOrLive(Value(JObj(m)), "publishedTimeText") == Success(Value(JStr(match x.publishedText case Some(t) => t case None => Live)))
  {
  }

  lemma ThumbnailOfShape(m: map<string, Json>, x: VideoShape)
    requires Describes(m, x)
    ensures |x.thumbnailUrls| == 0 ==> LastThumbnailUrl(Value(JObj(m))).Failure?
    ensures |x.thumbnailUrls| > 0 ==> LastThumbnailUrl(Value(JObj(m))) == Success(Value(JStr(x.thumbnailUrls[|x.thumbnailUrls| - 1])))
  {
  }

  lemma VerifiedOfShape(m: map<string, Json>, x: VideoShape)
    requires Describes(m, x)
    ensures Verified(Value(JObj(m))) == Success(x.badgeStyles.Some? && exists i :: 0 <= i < |x.badgeStyles.value| && Contains(x.badgeStyles.value[i], VerifiedMark))
  {
    if x.badgeStyles.Some? {
      VerifiedOfBadgeList(m, x.badgeStyles.value);
    }
  }

  lemma VerifiedOfBadgeList(m: map<string, Json>, styles: seq<string>)
    requires "ownerBadges" in m && IsBadgeList(m["ownerBadges"], styles)
    ensures Verified(Value(JObj(m))) == Success(exists i :: 0 <= i < |styles| && Contains(styles[i], VerifiedMark))
  {
    var badges := m["ownerBadges"].elems;
    assert Verified(Value(JObj(m))) == SomeVerified(badges);
    assert forall i :: 0 <= i < |badges| ==> PlainBadge(badges[i]) && BadgeStyle(badges[i]) == styles[i];
    SomeVerifiedOfPlainBadges(badges);
  }

  /** A renderer holding the fields of `x`, whatever other members it has,
      parses to the record those fields describe, and fails exactly when its
      thumbnail list is empty. */
  lemma ParseWellFormedRenderer(m: map<string, Json>, x: VideoShape)
    requires Describes(m, x)
    ensures ParseVideoRenderer(Value(JObj(m))).Success? <==> |x.thumbnailUrls| > 0
    ensures |x.thumbnailUrls| > 0 ==> ParseVideoRenderer(Value(JObj(m))) == Success(Expected(x))
  {
    ThumbnailOfShape(m, x);
    if |x.thumbnailUrls| > 0 {
      TitleOfShape(m, x);
      WebUrlOfShape(m, x);
      TextOrLiveOfShape(m, x);
      OwnerOfShape(m, x);
      VerifiedOfShape(m, x);
      ParseOfParts(Value(JObj(m)), Expected(x));
    }
  }

  /** A renderer whose parts each yield the matching part of `item` parses to `item` */
  lemma ParseOfParts(renderer: Val, item: Item)
    requires item.content.kind == "video"
    requires Prop(renderer, "videoId") == Success(item.content.id)
    requires Title(renderer) == Success(item.content.title)
    requires WebUrl(renderer) == Success(item.content.url)
    requires TextOrLive(renderer, "lengthText") == Success(item.content.duration)
    requires TextOrLive(renderer, "publishedTimeText") == Success(item.content.uploadDate)
    requires LastThumbnailUrl(renderer) == Success(item.content.thumbnailSrc)
    requires Owner(renderer) == Success((item.uploader.username, item.uploader.url))
    requires Verified(renderer) == Success(item.uploader.verified)
    ensures ParseVideoRenderer(renderer) == Success(item)
  {
  }

}

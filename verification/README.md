# youtube-scrape extraction pipeline, in Dafny

This project models the extraction core of `youtube-scrape`. The core runs after the search page has
been fetched. It takes the page's embedded initial-data blob, once decoded, and turns it into the
list of video records that the `youtube(query)` promise resolves to. It has three parts:

- **Record parser** (`parseVideoRenderer`, `comb`): module `Renderer`. It maps one loosely-typed
  `videoRenderer` object to a `{ content, uploader }` record, or throws. The title is the
  concatenation of the title runs. Both URLs are the origin followed by a path. Duration and upload
  date default to `"Live"`. The thumbnail is the last one listed. `verified` is a short-circuiting
  `some` over the owner badges.
- **Section parser** (`parseJsonFormat`): module `Sections`. It folds over the section list. From
  each section that owns an `itemSectionRenderer`, it parses up to `limit` entries. An entry that
  throws is skipped. A section that throws is skipped as a whole.
- **Driver** (the request callback of `youtube`): module `Driver`. It locates and decodes the blob
  and follows the fixed navigation chain to the section list. It then picks the envelope the
  promise resolves to: `{ results, version }` or `{ error }`.

Two supporting modules hold shared definitions. `Js` models the JavaScript values found in decoded
data: JSON values plus `undefined`. It also gives the few operations the code applies to them:
property access that throws on `undefined`/`null`, truthiness, string conversion, `indexOf`, and
first/last element, and a chain of member reads. `Pages` says when a decoded value holds given
typed fields (`Describes`, `DescribesSection`, `DescribesPage`). Any further members may be present,
as they are on real pages. The lemmas compare the parsers against reference definitions on every value
these predicates accept. `Pages` also has builders producing one such value per set of fields.
`Seqs` has the concatenation of per-element contributions, and the left-to-right loop that appends them to an accumulator. `Wrappers` has `Option` and `Result`.
A JavaScript throw is a `Failure`.

Three behaviours of the code are worth stating on their own:

- The item limit (15) is checked against the index inside each section, and that index starts at 0
  in every section. So the total can exceed 15: `Sections.LimitIsPerSection` shows two sections
  yielding `2 * limit` records.
- A missing `videoId` does not make an item fail. `id` just becomes `undefined`
  (`Renderer.MissingVideoIdClearsOnlyTheId`). So a result may have no id.
- A non-200 status with no transport error resolves `{ error: null }` (`Driver.Respond`).

Fields that the code copies unchanged from the page are JavaScript values (`Js.Val`), not
strings: `id`, `username`, `duration`, `upload_date` and `thumbnail_src`. Each one can be
`undefined` or any JSON value. Numbers are kept as their JavaScript string form, because the core
only tests and prints them.

## Model

| member | source | states |
|---|---|---|
| Js.Prop | scraper.js:81-91 | Reading a member throws exactly on `undefined`/`null`. It yields the member of an object that has it, and `undefined` for every other value. |
| Js.First | scraper.js:90 | `runs[0]` throws exactly on `undefined`/`null`. On an array it is the first element, or `undefined` when the array is empty. |
| Js.Last | scraper.js:86 | `list[list.length - 1]` throws exactly on `undefined`/`null`. On an array it is the last element, or `undefined` when the array is empty. |
| Js.ToStr | scraper.js:108 | String conversion keeps a string unchanged and turns `undefined` into "undefined". |
| Js.IndexOf | scraper.js:94 | `indexOf` returns -1 or a position where the needle occurs, and no earlier position at or after `from` holds the needle. |
| Js.IndexOfFindsSubstring | scraper.js:94 | `s.indexOf(t) > -1` holds iff `t` occurs in `s`. |
| Js.FollowThrowsAtBrokenLink | scraper.js:27 | A chain of member reads throws iff one of its links is read from `undefined` or `null`. |
| Seqs.CollectAppend | scraper.js:52-57 | Per-element contributions over two consecutive runs are those of each run, in order. |
| Seqs.FoldIsCollect | scraper.js:52-57 | A loop that pushes each element's contribution onto an accumulator leaves the accumulator followed by every contribution, in order. |
| Renderer.Comb | scraper.js:107-109 | `comb` only extends the accumulator, and a `null` run makes it throw. |
| Renderer.ReduceComb | scraper.js:82 | Reducing the title runs only extends the accumulator. |
| Renderer.Title | scraper.js:82 | An `undefined`/`null` renderer fails. A title is only produced when `title.runs` is an array. |
| Renderer.ReduceCombConcatenates | scraper.js:82 | For runs with string `text`, the title is the accumulator followed by every run's text, in order. |
| Renderer.EmptyRunsGiveEmptyTitle | scraper.js:82 | An empty run list yields the empty title. |
| Renderer.WebUrl | scraper.js:83 | A video URL always starts with `https://www.youtube.com`. |
| Renderer.TextOrLive | scraper.js:84-85 | A missing `lengthText`/`publishedTimeText` yields `"Live"`. |
| Renderer.LastThumbnailUrl | scraper.js:86 | An `undefined`/`null` renderer fails. On a thumbnail array, an empty one fails, and otherwise the result is the last element's `url`. |
| Renderer.Owner | scraper.js:89-92 | The uploader URL always starts with `https://www.youtube.com`. |
| Renderer.StyleMentionsVerified | scraper.js:94 | On a string style the test holds iff the style contains "VERIFIED". On an array it is strict element search. The test succeeds only on a string or an array style; any other style throws. |
| Renderer.IsVerifiedBadge | scraper.js:94 | A `null` badge throws. A badge passes or fails the test only if it has a `metadataBadgeRenderer`. On a badge with a string style, it passes iff the style contains "VERIFIED". |
| Renderer.SomeVerified | scraper.js:94 | `some` is false iff every badge fails the test. True needs a badge that passes. A throw needs a badge that throws. |
| Renderer.Verified | scraper.js:93-95 | A missing or empty `ownerBadges` gives `false`, never an absent value. `true` needs a non-empty badge array. |
| Renderer.SomeVerifiedComposes | scraper.js:94 | `some` short-circuits. Once a prefix of the badges is decided (a verified badge, or a badge that throws), the later badges do not matter. Otherwise the answer is the rest's. |
| Renderer.SomeVerifiedOfPlainBadges | scraper.js:93-95 | On badges with string styles, `verified` holds iff some style contains "VERIFIED". |
| Renderer.ParseVideoRenderer | scraper.js:78-98 | An `undefined`/`null` renderer fails. A parsed record has type "video" and `id` equal to the renderer's `videoId` (possibly undefined). Both URLs start with the origin. The title and thumbnail are those the renderer's runs and last thumbnail give. |
| Renderer.MissingVideoIdClearsOnlyTheId | scraper.js:81 | Removing `videoId` never makes an item fail. The record is unchanged except that `id` is `undefined`. |
| Renderer.EmptyThumbnailListFails | scraper.js:86 | An empty `thumbnail.thumbnails` list makes the item fail. |
| Renderer.TitleOfShape | scraper.js:82 | The title of a renderer holding given fields, whatever other members it has, is its run texts concatenated. |
| Renderer.WebUrlOfShape | scraper.js:83 | The URL of a renderer holding given fields is the origin followed by its `webCommandMetadata.url`. |
| Renderer.OwnerOfShape | scraper.js:89-92 | The uploader of a renderer holding given fields is the first owner run's text. Its URL is the origin followed by that run's path. |
| Renderer.TextOrLiveOfShape | scraper.js:84-85 | Duration/upload date of a renderer holding given fields are the `simpleText` when present, and "Live" otherwise. |
| Renderer.ThumbnailOfShape | scraper.js:86 | The thumbnail of a renderer holding given fields is the last listed URL. An empty list fails. |
| Renderer.VerifiedOfShape | scraper.js:93-95 | `verified` holds iff badges are present and some style contains "VERIFIED". |
| Renderer.ParseWellFormedRenderer | scraper.js:78-98 | Any renderer holding given fields, whatever other members it has, parses to the record those fields describe. It fails exactly when its thumbnail list is empty. |
| Sections.HasItemSection | scraper.js:54 | `hasOwnProperty("itemSectionRenderer")` holds exactly for objects owning that member. It throws exactly on `null` or on an object with its own `hasOwnProperty`. |
| Sections.ParseEntry | scraper.js:57 | An entry that is `null`, or that has no `videoRenderer`, fails. |
| Sections.EntryItems | scraper.js:56-62 | Each entry pushes at most one record. |
| Sections.ParseEntries | scraper.js:55-63 | The inner loop pushes no more records than it visits entries. |
| Sections.SectionOutcome | scraper.js:54-64 | A section without `itemSectionRenderer` adds nothing. An item section adds the parsed records among its first `min(limit, n)` entries, and never more than `limit`. |
| Sections.SectionItems | scraper.js:53-69 | A section, once its exception is caught, adds at most `limit` records. |
| Sections.FoldSections | scraper.js:52-70 | The fold only appends to `results`, at most `limit` records per section. |
| Sections.ParseJsonFormat | scraper.js:51-71 | `parseJsonFormat` succeeds iff its section list is an array, and it then only appends to `results`. |
| Sections.FoldIsConcatenation | scraper.js:52-57 | The results are the previous results followed by every section's records, section by section in page order. |
| Sections.AllSectionItemsAppend | scraper.js:52 | The records of two consecutive runs of sections are those of each run, in order. |
| Sections.SilentSectionIsSkipped | scraper.js:53-69 | A section that throws, or has no `itemSectionRenderer`, leaves the results as if it were absent. Later sections are still processed. |
| Sections.ParseEntriesAppend | scraper.js:55-57 | The records of two consecutive runs of entries are those of each run, in order. |
| Sections.FailingEntryIsSkipped | scraper.js:56-62 | An entry that throws is skipped, and the entries after it are still parsed. |
| Sections.ItemSectionItems | scraper.js:55-57 | Any item section adds the records of its first `min(limit, n)` entries that parse. |
| Sections.EntriesPastLimitAreIgnored | scraper.js:55 | Two item sections that agree on their first `limit` entries add the same records. Entries past the limit never matter. |
| Sections.ParseWellFormedEntries | scraper.js:55-63 | Entries holding given fields, whatever other members they have, parse to the records those fields describe, in order. |
| Sections.SectionOfShape | scraper.js:53-64 | A section holding given videos adds the records of the first `limit` of them. A section of another kind adds nothing. |
| Sections.WellFormedSectionsItems | scraper.js:52-64 | Sections holding given videos add the records of the first `limit` videos of each, section by section in page order. |
| Sections.LimitIsPerSection | scraper.js:55 | Two sections of `limit` well-formed videos each yield `2 * limit` records, so there is no global bound. |
| Driver.SearchUrl | scraper.js:7-11 | The URL is the search base, then the encoded query, then `&sp=EgQQARgB`. |
| Driver.Locate | scraper.js:21-25 | The primary pattern's group is used when it matches. Otherwise the result is the fallback's group, or nothing. Nothing is located iff neither matches. |
| Driver.Navigate | scraper.js:27 | The chain reads the five members in order. It throws iff `data` or one of the first four members read is `undefined` or `null`, e.g. when the page has no `contents`. A missing last member gives `undefined`. |
| Driver.SectionLists | scraper.js:19-32 | `sectionLists` stays `[]` when nothing is located, when decoding fails, or when the navigation chain throws. Otherwise it is the chain's value. |
| Driver.NavigateFindsSections | scraper.js:27 | On any page whose navigation chain leads to an array, whatever other members it has, the chain finds that array. |
| Driver.Respond | scraper.js:14-40 | `{ error }` with the transport error is resolved iff there is an error or the status is not 200. With nothing located, `{ results: [], version }` is resolved. The callback throws iff `sectionLists` is not an array. With no error, status 200 and an array section list, it resolves `{ results, version }` with all sections' records in page order. |
| Driver.MissingLinkGivesNoResults | scraper.js:27-35 | When a link of the navigation chain is missing or `null`, anywhere before the last member, the chain throws and the callback resolves `{ results: [], version }`. |
| Driver.SectionListWithoutContentsEscapes | scraper.js:27-35 | As written, a `sectionListRenderer` without `contents` makes the callback throw. The guarded callback resolves no results instead. |
| Driver.RespondGuarded | scraper.js:14-40 | The corrected callback always resolves: `{ results, version }` iff no transport error and status 200. The results are the sections' records, or `[]` when the section list is not an array. |
| Driver.OneSectionPageResolves | scraper.js:14-40 | A page with one item section listing at most 15 well-formed videos resolves to exactly one record per video, in order, each the video's expected record and of type "video". |
| Driver.WellFormedPageResolves | scraper.js:14-40 | A page whose sections hold given well-formed videos, whatever other members its objects have, resolves to the records of the first 15 videos of each section, in page order, each of type "video". |

## Findings

| source | as written | input that shows it | evidently intended | confidence | as-written member | corrected member |
|---|---|---|---|---|---|---|
| scraper.js:27-35 | `sectionLists` takes the chain's last member without checking it, and `parseJsonFormat(sectionLists, ...)` runs outside the `try`. A missing `contents` makes `contents.forEach` throw inside the request callback. The TypeError escapes uncaught, which by default ends the process, and the promise never settles. | decoded page `{"contents":{"twoColumnSearchResultsRenderer":{"primaryContents":{"sectionListRenderer":{}}}}}` with status 200 | a section list that is not an array degrades to `{ results: [], version }`, like every other failure to reach the sections | medium; not executed | Driver.SectionListWithoutContentsEscapes | Driver.RespondGuarded |

`Driver.Respond` models the callback as written; the lemma exhibits the escaping exception on the
input above, and `Driver.RespondGuarded` is the corrected callback, which always resolves.

## Left out

- The HTTP request and the Promise wrapping (scraper.js:1-4, 14): the callback's inputs `error`,
  `statusCode` and `html` are parameters. What happens to the escaping exception afterwards (by
  default, Node ends the process) is not modelled; the outcome is `Uncaught`.
- The two regular expressions (scraper.js:21, 24): their JavaScript semantics (dot-all, greedy
  match) are not modelled. Each one is a parameter returning the captured group or `None`.
- `JSON.parse` (scraper.js:26) is a parameter returning the decoded value or `None`. A decoded
  number is represented by its JavaScript string form.
- `encodeURIComponent` (scraper.js:9) is a parameter of `Driver.SearchUrl`.
- The version read from `package.json` (scraper.js:5) is a parameter.
- The `console.error`/`console.log` diagnostics (scraper.js:30-31, 60-61, 67-68) have no effect on
  results.
- Js.Last: an object with its own `length` member, used as the thumbnail list, is treated as having
  no last element. JavaScript would compute `length - 1` and look that key up.
- Sections.SectionOutcome: an object with its own `length` member, used as an item section's
  `contents`, is treated as having no entries. JavaScript would visit its numeric keys up to that
  length.
- Js.Prop: members of built-in prototypes are not modelled. No key the core reads (`title`,
  `runs`, `url`, ...) names one.
- JavaScript strings are sequences of UTF-16 code units; the model's strings are sequences of code
  points. A decoded string holding a lone surrogate (`"\ud800"`) has no counterpart in the model.
  Otherwise the difference could only show where a string is indexed: a string used as a thumbnail
  list, an owner run list or an item list. In each of those cases the resulting one-character string
  is only read for a member, and that member is `undefined` either way.
- `parseJsonFormat`'s `limit` is a `nat`. The source only ever passes 15.

# Tag detection engine of track-to-measure, in Dafny

This project models the tag-detection engine of the track-to-measure website
scanner and proves what it guarantees. The engine is `detectTags(html, url)` of
the scan route. It takes the text of a fetched page and reports:

- the content-management system the page was built with;
- for each of eight marketing platforms (Google Tag Manager, Google
  Analytics 4, Meta Pixel, Google Ads, Microsoft Advertising, LinkedIn
  Insight, Twitter/X Pixel, TikTok Pixel), whether its tag is present and
  the id it carries;
- the GA4 "Incomplete configuration" warning;
- a list of recommendations.

The model also covers the scanner page's `convertToPdfFormat`, which hands a
report to the PDF renderer, and the page's `initialTags` placeholder table.

Modules, one concept each:

- `Opt` (option.dfy): `null` as `None`.
- `Text` (text.dfy): case-sensitive `String.prototype.includes`, the ASCII case
  folding of the `i` flag, and `join`.
- `Patterns` (patterns.dfy): the eight fixed regular expressions. Each one has
  the shape *head alternatives · character class{least,most} · literal tail*.
  `IsFirstMatch` states what `String.prototype.match` without the `g` flag
  returns: the leftmost start, then the first head alternative, then the
  longest repetition. `Find` is a search proved to return exactly that match.
  An optional space (` ?`) is written as two heads, the one with the space
  first.
- `Sequences` (sequences.dfy): `filter` + `map`, and where each kept element
  lands in the result.
- `Tags` (tags.dfy): the `Tag` and `ScanResult` records. The status type
  includes `loading`, as on the scanner page. The field `type` is called
  `kind`, because `type` is a Dafny keyword.
- `ScanRoute` (scan_route.dfy): the CMS classifier, the detector table, the
  GA4 warning, the recommendations and the report.
- `ScanProperties` (scan_properties.dfy): the properties of the report.
- `ScannerPage` (scanner_page.dfy): `initialTags` and `convertToPdfFormat`.

Two facts about the code shape the model:

- The `warning` status is declared (app/api/scan/route.ts:4) but never
  produced: a GA4 id without a configuration call gets the warning and keeps
  status `found` (app/api/scan/route.ts:65). `ScanProperties.Ga4WarningRule`
  proves that no record ever has status `warning`.
- Under the `i` flag, Twitter's `[a-z0-9]` and TikTok's `[A-Z0-9]` both accept
  letters of either case (`ScanProperties.AlphaNumIsAsciiAlnum`).

Consequences of the patterns as written are proved as examples:

- The unescaped `.` of `/bat.js/i` accepts any one code unit that is not a
  line terminator, so `combat-js` counts as Microsoft Advertising, while
  `bat😀js` does not: the emoji is two code units.
- `/G-[A-Z0-9]{10}/i` is not anchored to a word, so `img-background` reads as
  a GA4 measurement id.

## Model

| member | source | states |
|---|---|---|
| Text.IncludesFrom | app/api/scan/route.ts:30 | the search from index `i` answers true exactly when the text occurs at some index at or after `i` |
| Text.Includes | app/api/scan/route.ts:30-34 | `includes` answers true exactly when the needle occurs somewhere in the page, character for character (case-sensitive) |
| Patterns.LongestAt | app/api/scan/route.ts:41 | for one head at one index, the greedy quantifier yields a repetition count that completes a match, and no larger count does; or it yields nothing, when no count does |
| Patterns.TryHeads | app/api/scan/route.ts:72 | head alternatives are tried in order: the result uses the first head that can match at the index, with its longest repetition; nothing means no later head can match there |
| Patterns.FindFrom | app/api/scan/route.ts:42 | the result is the leftmost match at or after `i`, with no match starting between `i` and it; nothing means no match starts at or after `i` |
| Patterns.Find | app/api/scan/route.ts:42 | `match` returns the first match as JavaScript defines it (leftmost start, first alternative, greedy count); it returns null exactly when the pattern matches nowhere |
| Patterns.FirstMatchUnique | app/api/scan/route.ts:42 | the first-match specification admits one match only, so the id a pattern yields is determined by the page |
| Patterns.NoMatchInEmpty | app/api/scan/route.ts:41-42 | a pattern whose heads are all non-empty never matches the empty text |
| Patterns.WholeText | app/api/scan/route.ts:47 | `match[0]` is the piece of the page at the match's start, as long as head, repetition and tail together |
| Patterns.Group | app/api/scan/route.ts:78 | `match[1]` is the piece of the page right after the head, as long as the repetition |
| Patterns.WholeTextShape | app/api/scan/route.ts:41-47 | `match[0]` of a one-head pattern with no tail is the head (any case), then a run of the class within the bounds; the run stops short of the upper bound only where the page's run ends |
| Patterns.GroupShape | app/api/scan/route.ts:72-78 | `match[1]` is a run of the class within the bounds, lying between one of the heads and the tail literal |
| ScanRoute.FirstFingerprint | app/api/scan/route.ts:30-38 | yields no CMS exactly when no marker occurs; otherwise yields the CMS of the first marker in order that occurs |
| ScanRoute.ClassifyCms | app/api/scan/route.ts:29-38 | WordPress if `wp-content` occurs; else Shopify if `Shopify.theme` occurs; else Drupal if `Drupal.settings` occurs; else null |
| ScanRoute.Detect | app/api/scan/route.ts:71-81 | a detector's record keeps its type, name and icon, has no warning, and is found or not found; found exactly when the pattern matches or the script host occurs; carries an id exactly when the pattern matched and the platform reports one |
| ScanRoute.Ga4Warnings | app/api/scan/route.ts:55-60 | the warnings are empty or exactly "Incomplete configuration"; non-empty exactly when a GA4 id matches and neither `gtag('config'` nor `gtag("config"` occurs |
| ScanRoute.Ga4Tag | app/api/scan/route.ts:62-69 | the GA4 record keeps GA4's type, name and icon, is found or not found, found and with an id exactly when a measurement id matches, and carries the GA4 warnings, which only a found record with an id can have |
| ScanRoute.ConsiderLine | app/api/scan/route.ts:147 | the line is "Consider implementing ", then the tag's name, then " for better tracking capabilities", so the name can be read back from it |
| ScanRoute.FixLine | app/api/scan/route.ts:154 | the line is "Fix ", the tag's name, " configuration: ", then the warnings joined by ", "; with the single warning the engine produces, the line ends in exactly that warning |
| Text.Join | app/api/scan/route.ts:154 | no parts join to the empty text, one part joins to itself, and two or more start with the first part followed by the separator |
| ScanRoute.Recommendations | app/api/scan/route.ts:143-156 | there are as many lines as missing tags plus warned tags |
| ScanRoute.ScanTags | app/api/scan/route.ts:25-141 | the report always holds one record per detector |
| ScanRoute.ScanRecord | app/api/scan/route.ts:43-141 | record `i` has detector `i`'s type, name and icon; it is found exactly when that pattern matches or that host occurs; it has an id exactly when the pattern matched and the detector reports ids; it has no id or warning when not found; only the GA4 record can warn |
| ScanRoute.DetectTags | app/api/scan/route.ts:24-164 | the report echoes the url and timestamp, holds eight records, carries the CMS that the fingerprints give and the recommendations of its own records, and has no more recommendations than records |
| Sequences.SelectPlaces | app/api/scan/route.ts:144-148 | every kept tag contributes its line, at the position given by the number of kept tags before it |
| Sequences.SelectOnlyKept | app/api/scan/route.ts:144-148 | every line of a filtered pass comes from a kept tag, at that tag's position |
| Sequences.Select | app/api/scan/route.ts:144-156 | a filtered pass yields exactly one line per kept tag |
| Sequences.DisjointCounts | app/api/scan/route.ts:144-156 | when no tag is kept by both passes, the two passes together have no more lines than there are tags |
| Sequences.CountConcat | app/api/scan/route.ts:152-154 | counting over two passes appended is counting over each |
| Sequences.CountSelected | app/api/scan/route.ts:144-148 | when every produced line has a property, the lines with it are as many as the kept tags |
| Sequences.CountSelectedNone | app/api/scan/route.ts:152-154 | when no produced line has a property, no line of the pass has it |
| ScanProperties.AlphaNumIsAsciiAlnum | app/api/scan/route.ts:120 | under the `i` flag, `[A-Z0-9]` and `[a-z0-9]` both accept exactly the ASCII letters and digits |
| ScanProperties.DigitIsAsciiDigit | app/api/scan/route.ts:72 | `\d` accepts exactly the ASCII digits `0` to `9` |
| ScanProperties.FixedTagList | app/api/scan/route.ts:43-141 | every report lists gtm, ga4, meta, ads, microsoft, linkedin, twitter, tiktok, in that order and with the same names, whatever the page |
| ScanProperties.FallbackFoundWithoutId | app/api/scan/route.ts:77-78 | for a platform with a script host, the host alone (with no id match) gives status found and a null id |
| ScanProperties.NoIdWhenNotFound | app/api/scan/route.ts:46-47 | a not-found record carries neither an id nor a warning |
| ScanProperties.Ga4WarningRule | app/api/scan/route.ts:53-69 | GA4 warns exactly when its id matched and no configuration call occurs, and then stays found with its id; no other record warns; no record is ever `warning` or `loading` |
| ScanProperties.IdIsWholeMatch | app/api/scan/route.ts:47 | a GTM, GA4 or Ads record's id is `match[0]` of the first match |
| ScanProperties.IdIsGroup | app/api/scan/route.ts:78 | a Meta, LinkedIn, Twitter/X or TikTok record's id is `match[1]`, the captured repetition, of the first match |
| ScanProperties.GtmDetectorId | app/api/scan/route.ts:41-47 | a GTM id is a piece of the page: `GTM-` in any case, then 4 to 7 letters or digits, cut short only where the page's run ends |
| ScanProperties.Ga4DetectorId | app/api/scan/route.ts:53-66 | a GA4 id is a piece of the page: `G-` in any case, then exactly 10 letters or digits |
| ScanProperties.AdsDetectorId | app/api/scan/route.ts:84-90 | an Ads id is a piece of the page: `AW-` in any case, then 9 or 10 digits, cut short only where the page's digits end |
| ScanProperties.MetaDetectorId | app/api/scan/route.ts:72-78 | a Meta id is 15 or 16 digits found in the page right before `')` |
| ScanProperties.LinkedInDetectorId | app/api/scan/route.ts:108-114 | a LinkedIn id is one or more digits found in the page right before `"` |
| ScanProperties.TwitterDetectorId | app/api/scan/route.ts:120-126 | a Twitter/X id is 5 or more letters or digits found in the page right before `')` |
| ScanProperties.TikTokDetectorId | app/api/scan/route.ts:132-138 | a TikTok id is exactly 20 letters or digits found in the page right before `'` |
| ScanProperties.GtmRecord | app/api/scan/route.ts:40-50 | the GTM record is found exactly when a container id matches; it has an id exactly then, and that id has the GTM shape |
| ScanProperties.Ga4Record | app/api/scan/route.ts:52-69 | the GA4 record is found exactly when a measurement id matches; it has an id exactly then, and that id has the GA4 shape |
| ScanProperties.MetaRecord | app/api/scan/route.ts:71-81 | Meta is found when a pixel id matches or `connect.facebook.net/en_US/fbevents.js` occurs; it has an id exactly when the pixel id matched |
| ScanProperties.AdsRecord | app/api/scan/route.ts:83-93 | Google Ads is found exactly when a conversion id matches; it has an id exactly then, and that id has the Ads shape |
| ScanProperties.MicrosoftRecord | app/api/scan/route.ts:95-105 | Microsoft is found exactly when `bat`, one code unit that is not a line terminator, and `js` occur, `bat` and `js` in any case, and never has an id or a warning |
| ScanProperties.LinkedInRecord | app/api/scan/route.ts:107-117 | LinkedIn is found when a partner id matches or `snap.licdn.com` occurs; it has an id exactly when the partner id matched |
| ScanProperties.TwitterRecord | app/api/scan/route.ts:119-129 | Twitter/X is found when a pixel id matches or `static.ads-twitter.com` occurs; it has an id exactly when the pixel id matched |
| ScanProperties.TikTokRecord | app/api/scan/route.ts:131-141 | TikTok is found when a pixel id matches or `analytics.tiktok.com` occurs; it has an id exactly when the pixel id matched |
| ScanProperties.ConsiderLines | app/api/scan/route.ts:143-149 | each missing tag's "Consider implementing" line appears, in tag order, among the first lines |
| ScanProperties.OnlyConsiderLines | app/api/scan/route.ts:143-149 | the first lines, as many as missing tags, are all "Consider implementing" lines of missing tags, in order |
| ScanProperties.FixLines | app/api/scan/route.ts:151-156 | each warned tag's "Fix … configuration" line appears, in tag order, after all the "Consider implementing" lines |
| ScanProperties.OnlyFixLines | app/api/scan/route.ts:151-156 | every line after the "Consider implementing" lines is the "Fix" line of a warned tag, in order |
| ScanProperties.LineKinds | app/api/scan/route.ts:147-154 | a "Consider implementing" line and a "Fix" line are told apart by their first word |
| ScanProperties.RecommendationCounts | app/api/scan/route.ts:143-156 | there are as many "Consider implementing" lines as not-found tags, and as many "Fix" lines as warned tags |
| ScanProperties.AllMissing | app/api/scan/route.ts:143-156 | when every tag is missing and none warns, the recommendations are exactly the "Consider implementing" lines of all tags, in order |
| ScanProperties.QuietTags | app/api/scan/route.ts:43-141 | on a page where no pattern matches and no host occurs, all eight records are not found, with no id and no warning |
| ScanProperties.QuietCms | app/api/scan/route.ts:30-38 | on a page with no CMS marker, the CMS is null |
| ScanProperties.QuietPage | app/api/scan/route.ts:24-164 | a page that matches nothing gives: the url echoed, no CMS, eight not-found records without id or warning, and the eight "Consider implementing" lines in platform order, with no "Fix" line |
| ScanProperties.NoPatternMatchesEmpty | app/api/scan/route.ts:41-132 | none of the eight patterns matches the empty page |
| ScanProperties.EmptyIsQuiet | app/api/scan/route.ts:30-141 | the empty page matches no pattern and contains no script host and no CMS marker |
| ScanProperties.EmptyPage | app/api/scan/route.ts:24-164 | the empty page gives eight not-found records, no CMS and exactly the eight "Consider implementing" lines |
| ScanProperties.GtmExampleMatch | app/api/scan/route.ts:41-42 | on `GTM-AB12CD` the match starts at 0 and takes all six characters after `GTM-` |
| ScanProperties.GtmExampleTag | app/api/scan/route.ts:41-50 | the GTM detector finds `GTM-AB12CD` and reports the whole token as its id |
| ScanProperties.GtmExample | app/api/scan/route.ts:40-50 | on a page that is just `GTM-AB12CD`, the report's GTM record is found with id `GTM-AB12CD` |
| ScanProperties.Ga4ExampleTag | app/api/scan/route.ts:53-69 | on `G-1234567890`, GA4 is found and warns of an incomplete configuration |
| ScanProperties.Ga4FixRecommended | app/api/scan/route.ts:151-156 | a warned GA4 record, after a GTM record without warnings, earns its "Fix" line |
| ScanProperties.Ga4WithoutConfigExample | app/api/scan/route.ts:52-156 | on a page that is just `G-1234567890`, GA4 is found (not `warning`), warns "Incomplete configuration", and the recommendations include "Fix Google Analytics 4 configuration: Incomplete configuration" |
| ScanProperties.MicrosoftLooseDot | app/api/scan/route.ts:96-101 | the unescaped `.` makes `combat-js` count as Microsoft Advertising |
| ScanProperties.MicrosoftAstralDot | app/api/scan/route.ts:96-101 | `.` takes one code unit, so a character beyond U+FFFF between `bat` and `js` does not make `bat😀js` count as Microsoft Advertising |
| ScanProperties.Ga4InsideWord | app/api/scan/route.ts:53-66 | the unanchored GA4 pattern finds an id, and reports GA4 found, on a page reading `img-background` |
| ScannerPage.ConvertToPdfFormat | app/scanner/page.tsx:106-123 | url, scanDate, cms and recommendations are copied; tags keep number and order; each tag's type, name, id, warnings and icon are copied; `loading` becomes `not_found`, other statuses are unchanged, so no status is `loading` |
| ScannerPage.PdfStatus | app/scanner/page.tsx:110 | the converted status is never `loading`: `loading` becomes `not_found` and every other status is kept |
| ScannerPage.ConvertIdempotent | app/scanner/page.tsx:106-123 | converting a converted report changes nothing |
| ScannerPage.ConvertKeepsScanReport | app/scanner/page.tsx:106-123 | a report straight from the scan route has no `loading` record, so converting it gives the same report |
| ScannerPage.InitialTagsFollowDetectors | app/scanner/page.tsx:33-42 | the placeholders list the detectors' types, names and icons in order, all `loading`, with no id and no warning |
| ScannerPage.InitialTagsMatchReport | app/scanner/page.tsx:33-42 | the placeholders name the same platforms, in the same order and with the same icons, as every scan report |
| ScannerPage.PlaceholderReport | app/scanner/page.tsx:106-123 | converting a report that still holds the placeholders gives eight not-found records without id or warning |

## Left out

- The `POST` handler (app/api/scan/route.ts:167-224) is not modelled. It parses the JSON body, validates the URL with the `URL` constructor, fetches the page and wraps the answer in HTTP envelopes. All of that is I/O or a foreign parser. The model starts from the fetched text.
- The report timestamp `new Date().toISOString()` (app/api/scan/route.ts:160) is a clock read. `DetectTags` takes it as the `scanDate` parameter and echoes it.
- `validateUrl`, `handleScan` and the React rendering of the scanner page are UI and I/O around the built-in `URL` parser and `fetch`. They are not modelled.
- The PDF renderer and `lib/services/pdf-generator` are not part of this model. Only the conversion that feeds them is modelled.
- The copy of `convertToPdfFormat` and the mock report in components/home/tag-scanner.tsx are left out. The copy is the same code as the scanner page's, which is modelled once. The mock report is demo data and is not produced by the engine.
- The authentication routes, the user store, and the static pages and layout are left out: they contain no decision logic.
- A missing or non-text page cannot arise: `detectTags` takes a `string`.
- A general JavaScript regular-expression engine is left out. Only the shape the eight patterns share is modelled.
- Strings are sequences of code points, one `char` each: the page is the decoded text of `response.text()` (app/api/scan/route.ts:204), which is well-formed, so no lone surrogate arises. JavaScript compares UTF-16 code units instead. `includes`, the literals and the ASCII classes give the same answers over code points as over code units, because every needle and literal is ASCII and no ASCII code unit occurs inside the encoding of another character. Only `.` depends on the difference, and the model restricts it to characters of one code unit. Unicode case folding beyond ASCII does not arise, because the `i` flag without `u` never folds a non-ASCII character onto an ASCII one.
- Text.Join: the contract pins down the empty and single-part joins and the start of a longer one, not the full text of a join of several parts. The engine only ever joins one warning.

/**
 Properties of the scan report `DetectTags` assembles, for every page.
 */
module ScanProperties {
  import opened Opt
  import opened Text
  import opened Patterns
  import opened Sequences
  import opened Tags
  import opened ScanRoute

  /** ASCII letters and digits, stated without case folding. */
  predicate AsciiAlnum(c: char) {
    '0' <= c <= '9' || 'A' <= c <= 'Z' || 'a' <= c <= 'z'
  }

  predicate AsciiDigit(c: char) {
    '0' <= c <= '9'
  }

  /** `\d` and `[0-9]` accept exactly the ASCII digits. */
  lemma DigitIsAsciiDigit(c: char)
    ensures InClass(Digit, c) <==> AsciiDigit(c)
  {
  }

  /** Both `[A-Z0-9]` and `[a-z0-9]` with the `i` flag accept exactly the ASCII letters and digits. */
  lemma AlphaNumIsAsciiAlnum(c: char)
    ensures InClass(AlphaNum, c) <==> AsciiAlnum(c)
  {
  }

  /** Every report lists the same eight platforms, with the same names, in the same order. */
  lemma FixedTagList(html: string, url: string, scanDate: string)
    ensures var tags := DetectTags(html, url, scanDate).tags;
            && |tags| == 8
            && tags[0].kind == "gtm" && tags[0].name == "Google Tag Manager"
            && tags[1].kind == "ga4" && tags[1].name == "Google Analytics 4"
            && tags[2].kind == "meta" && tags[2].name == "Meta Pixel"
            && tags[3].kind == "ads" && tags[3].name == "Google Ads"
            && tags[4].kind == "microsoft" && tags[4].name == "Microsoft Advertising"
            && tags[5].kind == "linkedin" && tags[5].name == "LinkedIn Insight"
            && tags[6].kind == "twitter" && tags[6].name == "Twitter/X Pixel"
            && tags[7].kind == "tiktok" && tags[7].name == "TikTok Pixel"
  {
    ScanRecord(html, 0);
    ScanRecord(html, 1);
    ScanRecord(html, 2);
    ScanRecord(html, 3);
    ScanRecord(html, 4);
    ScanRecord(html, 5);
    ScanRecord(html, 6);
    ScanRecord(html, 7);
    assert Detectors == [Gtm, Ga4, Meta, Ads, Microsoft, LinkedIn, Twitter, TikTok];
  }

  /** A script host alone makes the platform found, without an id. */
  lemma FallbackFoundWithoutId(html: string, url: string, scanDate: string, i: int)
    requires 0 <= i < |Detectors| && Detectors[i].fallback.Some?
    requires !Matches(Detectors[i].pattern, html) && Occurs(html, Detectors[i].fallback.value)
    ensures var t := DetectTags(html, url, scanDate).tags[i];
            t.status == Found && t.id == None
  {
    ScanRecord(html, i);
  }

  /** A not-found record never carries an id or a warning. */
  lemma NoIdWhenNotFound(html: string, url: string, scanDate: string)
    ensures forall t <- DetectTags(html, url, scanDate).tags :: t.status == NotFound ==> t.id == None && t.warnings == []
  {
    forall i | 0 <= i < 8 {
      ScanRecord(html, i);
    }
  }

  /**
   The GA4 warning: present exactly when a GA4 id matched and neither
   configuration call occurs; the record stays found; no other record warns,
   and no record is ever in the `warning` (or `loading`) state.
   */
  lemma Ga4WarningRule(html: string, url: string, scanDate: string)
    ensures var tags := DetectTags(html, url, scanDate).tags;
            && (tags[1].warnings == ["Incomplete configuration"] <==>
                  Matches(Ga4Pattern, html) && !Occurs(html, "gtag('config'") && !Occurs(html, "gtag(\"config\""))
            && (tags[1].warnings != ["Incomplete configuration"] ==> tags[1].warnings == [])
            && (tags[1].warnings != [] ==> tags[1].status == Found && tags[1].id.Some?)
            && (forall i :: 0 <= i < 8 && i != 1 ==> tags[i].warnings == [])
            && (forall t <- tags :: t.status != Warning && t.status != Loading)
  {
    var tags := DetectTags(html, url, scanDate).tags;
    forall i | 0 <= i < 8 {
      ScanRecord(html, i);
    }
    assert tags[1] == Ga4Tag(html);
  }

  /** A detector that reports `match[0]` takes its id from the first match `s.match` returns. */
  lemma IdIsWholeMatch(d: Detector, html: string)
    requires d.idFrom == WholeMatch && Find(d.pattern, html).Some?
    ensures Detect(d, html).id == Some(WholeText(d.pattern, html, Find(d.pattern, html).value))
  {
  }

  /** A detector that reports `match[1]` takes its id from the repetition of the first match. */
  lemma IdIsGroup(d: Detector, html: string)
    requires d.idFrom == FirstGroup && Find(d.pattern, html).Some?
    ensures Detect(d, html).id == Some(Group(d.pattern, html, Find(d.pattern, html).value))
  {
  }

  /** A GTM id: `GTM-` in any case, then 4 to 7 letters or digits, as many as the page offers there. */
  ghost predicate GtmShaped(html: string, id: string) {
    && 8 <= |id| <= 11
    && LiteralAt(id, 0, "GTM-")
    && (forall j :: 4 <= j < |id| ==> AsciiAlnum(id[j]))
    && exists i :: OccursAt(html, id, i) && (|id| < 11 ==> i + |id| == |html| || !AsciiAlnum(html[i + |id|]))
  }

  /** A GA4 id: `G-` in any case, then exactly 10 letters or digits. */
  ghost predicate Ga4Shaped(html: string, id: string) {
    && |id| == 12
    && LiteralAt(id, 0, "G-")
    && (forall j :: 2 <= j < 12 ==> AsciiAlnum(id[j]))
    && Occurs(html, id)
  }

  /** A Google Ads id: `AW-` in any case, then 9 or 10 digits, as many as the page offers there. */
  ghost predicate AdsShaped(html: string, id: string) {
    && 12 <= |id| <= 13
    && LiteralAt(id, 0, "AW-")
    && (forall j :: 3 <= j < |id| ==> AsciiDigit(id[j]))
    && exists i :: OccursAt(html, id, i) && (|id| == 12 ==> i + 12 == |html| || !AsciiDigit(html[i + 12]))
  }

  /** A captured id: `least` or more (at most `most`) characters of a class, found in the page right before `close`. */
  ghost predicate CapturedBefore(html: string, id: string, least: nat, most: Option<nat>, digitsOnly: bool, close: string) {
    && least <= |id| && (most.None? || |id| <= most.value)
    && (forall j :: 0 <= j < |id| ==> if digitsOnly then AsciiDigit(id[j]) else AsciiAlnum(id[j]))
    && exists i :: OccursAt(html, id, i) && LiteralAt(html, i + |id|, close)
  }

  lemma GtmDetectorId(html: string)
    ensures var id := Detect(Gtm, html).id;
            id.Some? ==> GtmShaped(html, id.value)
  {
    if Find(GtmPattern, html).Some? {
      WholeTextShape(GtmPattern, html);
    }
  }

  lemma Ga4DetectorId(html: string)
    ensures var id := Detect(Ga4, html).id;
            id.Some? ==> Ga4Shaped(html, id.value)
  {
    if Find(Ga4Pattern, html).Some? {
      WholeTextShape(Ga4Pattern, html);
    }
  }

  lemma AdsDetectorId(html: string)
    ensures var id := Detect(Ads, html).id;
            id.Some? ==> AdsShaped(html, id.value)
  {
    if Find(AdsPattern, html).Some? {
      WholeTextShape(AdsPattern, html);
    }
  }

  lemma MetaDetectorId(html: string)
    ensures var id := Detect(Meta, html).id;
            id.Some? ==> CapturedBefore(html, id.value, 15, Some(16), true, "')")
  {
    if Find(MetaPattern, html).Some? {
      GroupShape(MetaPattern, html);
    }
  }

  lemma LinkedInDetectorId(html: string)
    ensures var id := Detect(LinkedIn, html).id;
            id.Some? ==> CapturedBefore(html, id.value, 1, None, true, "\"")
  {
    if Find(LinkedInPattern, html).Some? {
      GroupShape(LinkedInPattern, html);
    }
  }

  lemma TwitterDetectorId(html: string)
    ensures var id := Detect(Twitter, html).id;
            id.Some? ==> CapturedBefore(html, id.value, 5, None, false, "')")
  {
    if Find(TwitterPattern, html).Some? {
      GroupShape(TwitterPattern, html);
    }
  }

  lemma TikTokDetectorId(html: string)
    ensures var id := Detect(TikTok, html).id;
            id.Some? ==> CapturedBefore(html, id.value, 20, Some(20), false, "'")
  {
    if Find(TikTokPattern, html).Some? {
      GroupShape(TikTokPattern, html);
    }
  }

  /** The GTM record: found exactly when a container id matches, and then that id is its id. */
  lemma GtmRecord(html: string, url: string, scanDate: string)
    ensures var t := DetectTags(html, url, scanDate).tags[0];
            && (t.status == Found <==> Matches(GtmPattern, html))
            && (t.id.Some? <==> Matches(GtmPattern, html))
            && (t.id.Some? ==> GtmShaped(html, t.id.value))
  {
    assert Detectors[0] == Gtm;
    GtmDetectorId(html);
  }

  /** The GA4 record: found exactly when a measurement id matches, and then that id is its id. */
  lemma Ga4Record(html: string, url: string, scanDate: string)
    ensures var t := DetectTags(html, url, scanDate).tags[1];
            && (t.status == Found <==> Matches(Ga4Pattern, html))
            && (t.id.Some? <==> Matches(Ga4Pattern, html))
            && (t.id.Some? ==> Ga4Shaped(html, t.id.value))
  {
    assert Detectors[1] == Ga4;
    Ga4DetectorId(html);
  }

  /** The Meta record: found on a pixel id or on the `fbevents.js` host; the id is the captured pixel id. */
  lemma MetaRecord(html: string, url: string, scanDate: string)
    ensures var t := DetectTags(html, url, scanDate).tags[2];
            && (t.status == Found <==> Matches(MetaPattern, html) || Occurs(html, "connect.facebook.net/en_US/fbevents.js"))
            && (t.id.Some? <==> Matches(MetaPattern, html))
            && (t.id.Some? ==> CapturedBefore(html, t.id.value, 15, Some(16), true, "')"))
  {
    assert Detectors[2] == Meta;
    MetaDetectorId(html);
  }

  /** The Google Ads record: found exactly when a conversion id matches, and then that id is its id. */
  lemma AdsRecord(html: string, url: string, scanDate: string)
    ensures var t := DetectTags(html, url, scanDate).tags[3];
            && (t.status == Found <==> Matches(AdsPattern, html))
            && (t.id.Some? <==> Matches(AdsPattern, html))
            && (t.id.Some? ==> AdsShaped(html, t.id.value))
  {
    assert Detectors[3] == Ads;
    AdsDetectorId(html);
  }

  /** The Microsoft record: found when `bat`, one UTF-16 code unit that is not a line terminator, and `js` occur (in any case), and never with an id or a warning. */
  lemma MicrosoftRecord(html: string, url: string, scanDate: string)
    ensures var t := DetectTags(html, url, scanDate).tags[4];
            && (t.status == Found <==> Matches(MicrosoftPattern, html))
            && t.id == None
            && t.warnings == []
  {
    assert Detectors[4] == Microsoft;
  }

  /** The LinkedIn record: found on a partner id or on the `snap.licdn.com` host; the id is the captured partner id. */
  lemma LinkedInRecord(html: string, url: string, scanDate: string)
    ensures var t := DetectTags(html, url, scanDate).tags[5];
            && (t.status == Found <==> Matches(LinkedInPattern, html) || Occurs(html, "snap.licdn.com"))
            && (t.id.Some? <==> Matches(LinkedInPattern, html))
            && (t.id.Some? ==> CapturedBefore(html, t.id.value, 1, None, true, "\""))
  {
    assert Detectors[5] == LinkedIn;
    LinkedInDetectorId(html);
  }

  /** The Twitter/X record: found on a pixel id or on the `static.ads-twitter.com` host; the id is the captured pixel id. */
  lemma TwitterRecord(html: string, url: string, scanDate: string)
    ensures var t := DetectTags(html, url, scanDate).tags[6];
            && (t.status == Found <==> Matches(TwitterPattern, html) || Occurs(html, "static.ads-twitter.com"))
            && (t.id.Some? <==> Matches(TwitterPattern, html))
            && (t.id.Some? ==> CapturedBefore(html, t.id.value, 5, None, false, "')"))
  {
    assert Detectors[6] == Twitter;
    TwitterDetectorId(html);
  }

  /** The TikTok record: found on a pixel id or on the `analytics.tiktok.com` host; the id is the captured pixel id. */
  lemma TikTokRecord(html: string, url: string, scanDate: string)
    ensures var t := DetectTags(html, url, scanDate).tags[7];
            && (t.status == Found <==> Matches(TikTokPattern, html) || Occurs(html, "analytics.tiktok.com"))
            && (t.id.Some? <==> Matches(TikTokPattern, html))
            && (t.id.Some? ==> CapturedBefore(html, t.id.value, 20, Some(20), false, "'"))
  {
    assert Detectors[7] == TikTok;
    TikTokDetectorId(html);
  }

  /** Line `k` of `r` is the "Consider implementing" line of a missing tag with `k` missing tags before it. */
  ghost predicate ConsiderAt(tags: seq<Tag>, r: seq<string>, k: int) {
    exists i :: 0 <= i < |tags| && IsMissing(tags[i]) && Count(tags[..i], IsMissing) == k
                && 0 <= k < |r| && r[k] == ConsiderLine(tags[i])
  }

  /** Line `k` of `r` is the "Fix" line of a warned tag, placed after all missing tags and the warned tags before it. */
  ghost predicate FixAt(tags: seq<Tag>, r: seq<string>, k: int) {
    exists i :: 0 <= i < |tags| && IsWarned(tags[i]) && Count(tags, IsMissing) + Count(tags[..i], IsWarned) == k
                && 0 <= k < |r| && r[k] == FixLine(tags[i])
  }

  /** The first part of the recommendations: each missing tag's "Consider implementing" line, in tag order. */
  lemma ConsiderLines(tags: seq<Tag>)
    ensures var r := Recommendations(tags);
            forall i :: 0 <= i < |tags| && IsMissing(tags[i]) ==>
              Count(tags[..i], IsMissing) < Count(tags, IsMissing) && r[Count(tags[..i], IsMissing)] == ConsiderLine(tags[i])
  {
    var considers := Select(tags, IsMissing, ConsiderLine);
    var r := Recommendations(tags);
    assert r == considers + Select(tags, IsWarned, FixLine);
    forall i | 0 <= i < |tags| && IsMissing(tags[i])
      ensures Count(tags[..i], IsMissing) < |considers| && r[Count(tags[..i], IsMissing)] == ConsiderLine(tags[i])
    {
      SelectPlaces(tags, IsMissing, ConsiderLine, i);
    }
  }

  /** The first part of the recommendations holds nothing but "Consider implementing" lines of missing tags. */
  lemma OnlyConsiderLines(tags: seq<Tag>)
    ensures var r := Recommendations(tags);
            forall k :: 0 <= k < Count(tags, IsMissing) ==> ConsiderAt(tags, r, k)
  {
    var considers := Select(tags, IsMissing, ConsiderLine);
    var r := Recommendations(tags);
    assert r == considers + Select(tags, IsWarned, FixLine);
    forall k | 0 <= k < |considers|
      ensures ConsiderAt(tags, r, k)
    {
      SelectOnlyKept(tags, IsMissing, ConsiderLine, k);
    }
  }

  /** The second part of the recommendations: each warned tag's "Fix" line, in tag order, after all the "Consider implementing" lines. */
  lemma FixLines(tags: seq<Tag>)
    ensures var r := Recommendations(tags);
            forall i :: 0 <= i < |tags| && IsWarned(tags[i]) ==>
              Count(tags, IsMissing) + Count(tags[..i], IsWarned) < |r|
              && r[Count(tags, IsMissing) + Count(tags[..i], IsWarned)] == FixLine(tags[i])
  {
    var considers := Select(tags, IsMissing, ConsiderLine);
    var fixes := Select(tags, IsWarned, FixLine);
    var r := Recommendations(tags);
    assert r == considers + fixes;
    assert |considers| == Count(tags, IsMissing);
    forall i | 0 <= i < |tags| && IsWarned(tags[i])
      ensures |considers| + Count(tags[..i], IsWarned) < |r| && r[|considers| + Count(tags[..i], IsWarned)] == FixLine(tags[i])
    {
      SelectPlaces(tags, IsWarned, FixLine, i);
      var j := Count(tags[..i], IsWarned);
      assert r[|considers| + j] == fixes[j];
    }
  }

  /** After the "Consider implementing" lines come nothing but "Fix" lines of warned tags. */
  lemma OnlyFixLines(tags: seq<Tag>)
    ensures var r := Recommendations(tags);
            forall k :: Count(tags, IsMissing) <= k < |r| ==> FixAt(tags, r, k)
  {
    var considers := Select(tags, IsMissing, ConsiderLine);
    var fixes := Select(tags, IsWarned, FixLine);
    var r := Recommendations(tags);
    assert r == considers + fixes;
    forall k | |considers| <= k < |r|
      ensures FixAt(tags, r, k)
    {
      SelectOnlyKept(tags, IsWarned, FixLine, k - |considers|);
      assert r[k] == fixes[k - |considers|];
    }
  }

  /** A line of the first pass. */
  predicate IsConsiderLine(line: string) {
    "Consider implementing " <= line
  }

  /** A line of the second pass. */
  predicate IsFixLine(line: string) {
    "Fix " <= line
  }

  /** The two kinds of line are told apart by their first word. */
  lemma LineKinds(t: Tag)
    ensures IsConsiderLine(ConsiderLine(t)) && !IsFixLine(ConsiderLine(t))
    ensures IsFixLine(FixLine(t)) && !IsConsiderLine(FixLine(t))
  {
    var c := ConsiderLine(t);
    var f := FixLine(t);
    assert c[..22] == "Consider implementing ";
    assert f[..4] == "Fix ";
    assert c[0] == 'C' && f[0] == 'F';
  }

  /**
   The recommendations hold as many "Consider implementing" lines as there
   are missing tags, and as many "Fix" lines as there are warned tags.
   */
  lemma RecommendationCounts(tags: seq<Tag>)
    ensures Count(Recommendations(tags), IsConsiderLine) == Count(tags, IsMissing)
    ensures Count(Recommendations(tags), IsFixLine) == Count(tags, IsWarned)
  {
    var considers := Select(tags, IsMissing, ConsiderLine);
    var fixes := Select(tags, IsWarned, FixLine);
    assert Recommendations(tags) == considers + fixes;
    forall t: Tag
      ensures IsConsiderLine(ConsiderLine(t)) && !IsFixLine(ConsiderLine(t))
      ensures IsFixLine(FixLine(t)) && !IsConsiderLine(FixLine(t))
    {
      LineKinds(t);
    }
    CountConcat(considers, fixes, IsConsiderLine);
    CountConcat(considers, fixes, IsFixLine);
    CountSelected(tags, IsMissing, ConsiderLine, IsConsiderLine);
    CountSelectedNone(tags, IsWarned, FixLine, IsConsiderLine);
    CountSelected(tags, IsWarned, FixLine, IsFixLine);
    CountSelectedNone(tags, IsMissing, ConsiderLine, IsFixLine);
  }

  /** A page in which no pattern matches and no script host or CMS marker occurs. */
  ghost predicate Quiet(html: string) {
    && (forall d <- Detectors :: !Matches(d.pattern, html) && (d.fallback.None? || !Occurs(html, d.fallback.value)))
    && (forall f <- CmsFingerprints :: !Occurs(html, f.marker))
  }

  /** When every tag is missing and none warns, the recommendations are the "Consider implementing" lines of all tags, in order. */
  lemma AllMissing(tags: seq<Tag>)
    requires forall t <- tags :: t.status == NotFound && t.warnings == []
    ensures Recommendations(tags) == seq(|tags|, i requires 0 <= i < |tags| => ConsiderLine(tags[i]))
  {
    var considers := Select(tags, IsMissing, ConsiderLine);
    CountNone(tags, IsWarned);
    assert Recommendations(tags) == considers + [];
    CountAll(tags, IsMissing);
    forall i | 0 <= i < |tags|
      ensures considers[i] == ConsiderLine(tags[i])
    {
      assert forall j :: 0 <= j < i ==> tags[..i][j] == tags[j];
      CountAll(tags[..i], IsMissing);
      SelectPlaces(tags, IsMissing, ConsiderLine, i);
    }
  }

  /** On a quiet page every record is missing, without id or warning. */
  lemma QuietTags(html: string)
    requires Quiet(html)
    ensures forall t <- ScanTags(html) :: t.status == NotFound && t.id == None && t.warnings == []
  {
    var tags := ScanTags(html);
    forall i | 0 <= i < |tags|
      ensures tags[i].status == NotFound && tags[i].id == None && tags[i].warnings == []
    {
      assert Detectors[i] in Detectors;
      ScanRecord(html, i);
    }
  }

  /** On a quiet page no CMS is named. */
  lemma QuietCms(html: string)
    requires Quiet(html)
    ensures ClassifyCms(html) == None
  {
    assert CmsFingerprints[0] in CmsFingerprints && CmsFingerprints[1] in CmsFingerprints && CmsFingerprints[2] in CmsFingerprints;
  }

  /**
   A page that matches nothing: every platform is missing without id or
   warning, there is no CMS, and the recommendations are exactly the eight
   "Consider implementing" lines in platform order.
   */
  lemma QuietPage(html: string, url: string, scanDate: string)
    requires Quiet(html)
    ensures var r := DetectTags(html, url, scanDate);
            && r.url == url
            && r.cms == None
            && (forall t <- r.tags :: t.status == NotFound && t.id == None && t.warnings == [])
            && |r.recommendations| == 8
            && forall i :: 0 <= i < 8 ==>
                 r.recommendations[i] == "Consider implementing " + Detectors[i].name + " for better tracking capabilities"
  {
    var r := DetectTags(html, url, scanDate);
    QuietCms(html);
    QuietTags(html);
    AllMissing(r.tags);
    forall i | 0 <= i < 8 {
      ScanRecord(html, i);
    }
  }

  /** Every scanner pattern starts with a non-empty literal, so none matches the empty page. */
  lemma NoPatternMatchesEmpty()
    ensures forall d <- Detectors :: !Matches(d.pattern, "")
  {
    NoMatchInEmpty(GtmPattern);
    NoMatchInEmpty(Ga4Pattern);
    NoMatchInEmpty(MetaPattern);
    NoMatchInEmpty(AdsPattern);
    NoMatchInEmpty(MicrosoftPattern);
    NoMatchInEmpty(LinkedInPattern);
    NoMatchInEmpty(TwitterPattern);
    NoMatchInEmpty(TikTokPattern);
    assert Detectors == [Gtm, Ga4, Meta, Ads, Microsoft, LinkedIn, Twitter, TikTok];
  }

  /** The empty page is quiet: no pattern matches it and no script host or CMS marker occurs in it. */
  lemma EmptyIsQuiet()
    ensures Quiet("")
  {
    NoPatternMatchesEmpty();
    assert forall d <- Detectors :: d.fallback.None? || !Occurs("", d.fallback.value);
  }

  /** The empty page matches nothing. */
  lemma EmptyPage(url: string, scanDate: string)
    ensures var r := DetectTags("", url, scanDate);
            && r.url == url
            && r.cms == None
            && (forall t <- r.tags :: t.status == NotFound && t.id == None && t.warnings == [])
            && |r.recommendations| == 8
            && forall i :: 0 <= i < 8 ==>
                 r.recommendations[i] == "Consider implementing " + Detectors[i].name + " for better tracking capabilities"
  {
    EmptyIsQuiet();
    QuietPage("", url, scanDate);
  }

  /** `s.match(/GTM-[A-Z0-9]{4,7}/i)` on `GTM-AB12CD` takes all six characters after `GTM-`. */
  lemma GtmExampleMatch()
    ensures Find(GtmPattern, "GTM-AB12CD") == Some(Match(0, 0, 6))
  {
    assert MatchesAt(GtmPattern, "GTM-AB12CD", 0, 0, 6);
    assert IsFirstMatch(GtmPattern, "GTM-AB12CD", Match(0, 0, 6));
    FirstMatchUnique(GtmPattern, "GTM-AB12CD", Find(GtmPattern, "GTM-AB12CD").value, Match(0, 0, 6));
  }

  /** The GTM record of a page that is just `GTM-AB12CD`. */
  lemma GtmExampleTag()
    ensures Detect(Gtm, "GTM-AB12CD").status == Found
    ensures Detect(Gtm, "GTM-AB12CD").id == Some("GTM-AB12CD")
  {
    var page := "GTM-AB12CD";
    GtmExampleMatch();
    IdIsWholeMatch(Gtm, page);
    assert WholeText(GtmPattern, page, Match(0, 0, 6)) == page;
  }

  /** A page that is just `GTM-AB12CD`: the container is found and the whole token is its id. */
  lemma GtmExample(url: string, scanDate: string)
    ensures var t := DetectTags("GTM-AB12CD", url, scanDate).tags[0];
            t.status == Found && t.id == Some("GTM-AB12CD")
  {
    GtmExampleTag();
    assert Detectors[0] == Gtm;
  }

  /** The GA4 record of a page that is just `G-1234567890`. */
  lemma Ga4ExampleTag()
    ensures Ga4Tag("G-1234567890").status == Found
    ensures Ga4Tag("G-1234567890").warnings == ["Incomplete configuration"]
  {
    assert MatchesAt(Ga4Pattern, "G-1234567890", 0, 0, 10);
  }

  /** A GA4 record with a warning, behind a GTM record without one, earns its "Fix" line. */
  lemma Ga4FixRecommended(tags: seq<Tag>)
    requires |tags| >= 2 && tags[0].warnings == [] && IsWarned(tags[1])
    ensures FixLine(tags[1]) in Recommendations(tags)
  {
    assert tags[..1] == [tags[0]];
    assert Count(tags[..1], IsWarned) == 0;
    FixLines(tags);
  }

  /**
   A page that is just `G-1234567890`, without a configuration call: GA4 is
   found (not in the `warning` state), warns of an incomplete configuration,
   and the recommendations ask to fix it.
   */
  lemma Ga4WithoutConfigExample(url: string, scanDate: string)
    ensures var r := DetectTags("G-1234567890", url, scanDate);
            && r.tags[1].status == Found
            && r.tags[1].warnings == ["Incomplete configuration"]
            && "Fix " + "Google Analytics 4" + " configuration: " + "Incomplete configuration" in r.recommendations
  {
    var html := "G-1234567890";
    var tags := DetectTags(html, url, scanDate).tags;
    Ga4ExampleTag();
    assert tags[1] == Ga4Tag(html);
    assert tags[0].warnings == [];
    Ga4FixRecommended(tags);
    assert Join(["Incomplete configuration"], ", ") == "Incomplete configuration";
  }

  /** The `.` of `/bat.js/i` is one UTF-16 code unit that is not a line terminator, so `-` qualifies: `combat-js` counts as Microsoft Advertising. */
  lemma MicrosoftLooseDot(url: string, scanDate: string)
    ensures DetectTags("combat-js", url, scanDate).tags[4].status == Found
  {
    assert MatchesAt(MicrosoftPattern, "combat-js", 3, 0, 1);
    MicrosoftRecord("combat-js", url, scanDate);
  }

  /**
   A character beyond U+FFFF between `bat` and `js` is two code units, one more
   than `.` takes: `bat😀js` does not count as Microsoft Advertising.
   */
  lemma MicrosoftAstralDot(url: string, scanDate: string)
    ensures DetectTags("bat\U{1F600}js", url, scanDate).tags[4].status == NotFound
  {
    var page := "bat\U{1F600}js";
    assert !InClass(NotLineTerminator, page[3]);
    assert !Matches(MicrosoftPattern, page);
    MicrosoftRecord(page, url, scanDate);
  }

  /** The GA4 pattern is not anchored to a word: the class name `img-background` reads as a measurement id. */
  lemma Ga4InsideWord(url: string, scanDate: string)
    ensures var t := DetectTags("img-background", url, scanDate).tags[1];
            t.status == Found && t.id.Some?
  {
    assert MatchesAt(Ga4Pattern, "img-background", 2, 0, 10);
    Ga4Record("img-background", url, scanDate);
  }

}

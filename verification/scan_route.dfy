/**
 `detectTags` of the scan route: CMS classification, the eight tag detectors
 in their fixed order, the GA4 configuration warning, the two passes of
 recommendations, and the assembled report. The timestamp is a parameter.
 */
module ScanRoute {
  import opened Opt
  import opened Text
  import opened Patterns
  import opened Sequences
  import opened Tags

  // ---------------------------------------------------------------- CMS

  /** A content-management system recognised by a marker in the page. */
  datatype Fingerprint = Fingerprint(marker: string, cms: string)

  /** Checked in this order; the first marker present wins. */
  const CmsFingerprints: seq<Fingerprint> := [
    Fingerprint("wp-content", "WordPress"),
    Fingerprint("Shopify.theme", "Shopify"),
    Fingerprint("Drupal.settings", "Drupal")
  ]

  /** The CMS of the first fingerprint whose marker occurs in `html`. */
  function FirstFingerprint(html: string, fps: seq<Fingerprint>): (cms: Option<string>)
    ensures cms.None? <==> forall i :: 0 <= i < |fps| ==> !Occurs(html, fps[i].marker)
    ensures forall i :: 0 <= i < |fps| && Occurs(html, fps[i].marker) && (forall j :: 0 <= j < i ==> !Occurs(html, fps[j].marker))
              ==> cms == Some(fps[i].cms)
  {
    if |fps| == 0 then None
    else if Includes(html, fps[0].marker) then Some(fps[0].cms)
    else
      var rest := FirstFingerprint(html, fps[1..]);
      assert forall i :: 1 <= i < |fps| ==> fps[1..][i - 1] == fps[i];
      rest
  }

  /** The `cms` field of the report. */
  function ClassifyCms(html: string): (cms: Option<string>)
    ensures Occurs(html, "wp-content") ==> cms == Some("WordPress")
    ensures !Occurs(html, "wp-content") && Occurs(html, "Shopify.theme") ==> cms == Some("Shopify")
    ensures !Occurs(html, "wp-content") && !Occurs(html, "Shopify.theme") && Occurs(html, "Drupal.settings")
            ==> cms == Some("Drupal")
    ensures !Occurs(html, "wp-content") && !Occurs(html, "Shopify.theme") && !Occurs(html, "Drupal.settings")
            ==> cms == None
  {
    assert CmsFingerprints[0] == Fingerprint("wp-content", "WordPress");
    assert CmsFingerprints[1] == Fingerprint("Shopify.theme", "Shopify");
    assert CmsFingerprints[2] == Fingerprint("Drupal.settings", "Drupal");
    FirstFingerprint(html, CmsFingerprints)
  }

  // ---------------------------------------------------------- detectors

  /** Which part of a match becomes the tag's `id`. */
  datatype IdSource =
    | WholeMatch  // match[0]
    | FirstGroup  // match[1]
    | NoId        // the platform exposes no id

  /** One row of the detector table: the record's constant fields, the id pattern and the optional script-presence signal. */
  datatype Detector = Detector(kind: string, name: string, icon: string, pattern: Pattern, idFrom: IdSource, fallback: Option<string>)

  /** /GTM-[A-Z0-9]{4,7}/i */
  const GtmPattern := Pattern(["GTM-"], AlphaNum, 4, Some(7), "")
  /** /G-[A-Z0-9]{10}/i */
  const Ga4Pattern := Pattern(["G-"], AlphaNum, 10, Some(10), "")
  /** /fbq\('init', ?'(\d{15,16})'\)/i */
  const MetaPattern := Pattern(["fbq('init', '", "fbq('init','"], Digit, 15, Some(16), "')")
  /** /AW-[0-9]{9,10}/i */
  const AdsPattern := Pattern(["AW-"], Digit, 9, Some(10), "")
  /** /bat.js/i, whose `.` is one UTF-16 code unit that is not a line terminator */
  const MicrosoftPattern := Pattern(["bat"], NotLineTerminator, 1, Some(1), "js")
  /** /_linkedin_partner_id = "(\d+)"/i */
  const LinkedInPattern := Pattern(["_linkedin_partner_id = \""], Digit, 1, None, "\"")
  /** /twq\('init', ?'([a-z0-9]{5,})'\)/i */
  const TwitterPattern := Pattern(["twq('init', '", "twq('init','"], AlphaNum, 5, None, "')")
  /** /'i': ?'([A-Z0-9]{20})'/i */
  const TikTokPattern := Pattern(["'i': '", "'i':'"], AlphaNum, 20, Some(20), "'")

  const Gtm := Detector("gtm", "Google Tag Manager", "/google-tag-manager.svg", GtmPattern, WholeMatch, None)
  const Ga4 := Detector("ga4", "Google Analytics 4", "/google-analytics.svg", Ga4Pattern, WholeMatch, None)
  const Meta := Detector("meta", "Meta Pixel", "/meta-pixel.svg", MetaPattern, FirstGroup,
                         Some("connect.facebook.net/en_US/fbevents.js"))
  const Ads := Detector("ads", "Google Ads", "/google-ads.svg", AdsPattern, WholeMatch, None)
  const Microsoft := Detector("microsoft", "Microsoft Advertising", "/microsoft.svg", MicrosoftPattern, NoId, None)
  const LinkedIn := Detector("linkedin", "LinkedIn Insight", "/linkedin.svg", LinkedInPattern, FirstGroup,
                             Some("snap.licdn.com"))
  const Twitter := Detector("twitter", "Twitter/X Pixel", "/twitter.svg", TwitterPattern, FirstGroup,
                            Some("static.ads-twitter.com"))
  const TikTok := Detector("tiktok", "TikTok Pixel", "/tiktok.svg", TikTokPattern, FirstGroup,
                           Some("analytics.tiktok.com"))

  /** The platforms in report order. */
  const Detectors: seq<Detector> := [Gtm, Ga4, Meta, Ads, Microsoft, LinkedIn, Twitter, TikTok]

  function ExtractId(d: Detector, html: string, m: Match): string
    requires MatchesAt(d.pattern, html, m.start, m.alt, m.len)
  {
    if d.idFrom == WholeMatch then WholeText(d.pattern, html, m) else Group(d.pattern, html, m)
  }

  /**
   One detector. The tag is found when the id pattern matches anywhere or
   the script-presence signal occurs; it carries an id exactly when the
   pattern matched (and the platform exposes one).
   */
  function Detect(d: Detector, html: string): (t: Tag)
    ensures t.kind == d.kind && t.name == d.name && t.icon == d.icon && t.warnings == []
    ensures t.status == Found || t.status == NotFound
    ensures t.status == Found <==> Matches(d.pattern, html) || (d.fallback.Some? && Occurs(html, d.fallback.value))
    ensures t.id.Some? <==> Matches(d.pattern, html) && d.idFrom != NoId
  {
    var m := Find(d.pattern, html);
    var found := m.Some? || (d.fallback.Some? && Includes(html, d.fallback.value));
    Tag(d.kind, d.name, if found then Found else NotFound,
        if m.Some? && d.idFrom != NoId then Some(ExtractId(d, html, m.value)) else None,
        [], d.icon)
  }

  // --------------------------------------------------------- GA4 warning

  const IncompleteConfiguration := "Incomplete configuration"

  /** A GA4 id without any `gtag('config'` or `gtag("config"` call earns one warning. */
  function Ga4Warnings(html: string): (w: seq<string>)
    ensures w == [] || w == [IncompleteConfiguration]
    ensures w != [] <==> Matches(Ga4Pattern, html) && !Occurs(html, "gtag('config'") && !Occurs(html, "gtag(\"config\"")
  {
    var configured := Includes(html, "gtag('config'") || Includes(html, "gtag(\"config\"");
    if Find(Ga4Pattern, html).Some? && !configured then [IncompleteConfiguration] else []
  }

  /** The GA4 record: status and id as any detector, plus the configuration warning; the status stays `Found`. */
  function Ga4Tag(html: string): (t: Tag)
    ensures t.kind == Ga4.kind && t.name == Ga4.name && t.icon == Ga4.icon
    ensures t.status == Found <==> Matches(Ga4Pattern, html)
    ensures t.status == Found || t.status == NotFound
    ensures t.id.Some? <==> Matches(Ga4Pattern, html)
    ensures t.warnings == Ga4Warnings(html)
    ensures t.warnings != [] ==> t.status == Found && t.id.Some?
  {
    Detect(Ga4, html).(warnings := Ga4Warnings(html))
  }

  // ----------------------------------------------------- recommendations

  predicate IsMissing(t: Tag) { t.status == NotFound }

  predicate IsWarned(t: Tag) { |t.warnings| > 0 }

  /** The first-pass line: "Consider implementing ", the tag's name, then " for better tracking capabilities". */
  function ConsiderLine(t: Tag): (line: string)
    ensures "Consider implementing " <= line
    ensures |line| == |"Consider implementing "| + |t.name| + |" for better tracking capabilities"|
    ensures line[|"Consider implementing "|..|"Consider implementing "| + |t.name|] == t.name
    ensures line[|"Consider implementing "| + |t.name|..] == " for better tracking capabilities"
  {
    "Consider implementing " + t.name + " for better tracking capabilities"
  }

  /**
   The second-pass line: "Fix ", the tag's name, " configuration: ", then the
   warnings joined by ", " (for the single warning the engine produces, just that warning).
   */
  function FixLine(t: Tag): (line: string)
    ensures "Fix " <= line
    ensures |"Fix "| + |t.name| + |" configuration: "| <= |line|
    ensures line[|"Fix "|..|"Fix "| + |t.name|] == t.name
    ensures line[|"Fix "| + |t.name|..|"Fix "| + |t.name| + |" configuration: "|] == " configuration: "
    ensures line[|"Fix "| + |t.name| + |" configuration: "|..] == Join(t.warnings, ", ")
    ensures |t.warnings| == 1 ==> line[|"Fix "| + |t.name| + |" configuration: "|..] == t.warnings[0]
  {
    "Fix " + t.name + " configuration: " + Join(t.warnings, ", ")
  }

  /** One line per missing tag, in tag order, then one line per warned tag, in tag order. */
  function Recommendations(tags: seq<Tag>): (r: seq<string>)
    ensures |r| == Count(tags, IsMissing) + Count(tags, IsWarned)
  {
    Select(tags, IsMissing, ConsiderLine) + Select(tags, IsWarned, FixLine)
  }

  // -------------------------------------------------------------- report

  /** The eight records: record `i` comes from detector `i`, and the GA4 record also carries the configuration warning. */
  function ScanTags(html: string): (tags: seq<Tag>)
    ensures |tags| == |Detectors|
  {
    seq(|Detectors|, i requires 0 <= i < |Detectors| => if i == 1 then Ga4Tag(html) else Detect(Detectors[i], html))
  }

  /**
   Record `i` of a scan is detector `i`'s verdict: its constant fields,
   found exactly when its pattern matches or its script host occurs, an id
   exactly when the pattern matched and the detector reports one, neither id
   nor warning when not found; only the GA4 record can carry a warning.
   */
  lemma ScanRecord(html: string, i: int)
    requires 0 <= i < |Detectors|
    ensures var t := ScanTags(html)[i];
            && t.kind == Detectors[i].kind && t.name == Detectors[i].name && t.icon == Detectors[i].icon
            && (t.status == Found || t.status == NotFound)
            && (t.status == NotFound ==> t.id == None && t.warnings == [])
            && (i != 1 ==> t.warnings == [])
            && (t.status == Found <==>
                  Matches(Detectors[i].pattern, html)
                  || (Detectors[i].fallback.Some? && Occurs(html, Detectors[i].fallback.value)))
            && (t.id.Some? <==> Matches(Detectors[i].pattern, html) && Detectors[i].idFrom != NoId)
  {
    if i == 1 {
      assert Detectors[1] == Ga4;
    }
  }

  /** `detectTags(html, url)`, with the report's timestamp supplied by the caller. */
  function DetectTags(html: string, url: string, scanDate: string): (r: ScanResult)
    ensures r.url == url && r.scanDate == scanDate
    ensures |r.tags| == |Detectors|
    ensures |r.recommendations| <= |r.tags|
    ensures r.cms == ClassifyCms(html)
    ensures r.recommendations == Recommendations(r.tags)
  {
    var tags := ScanTags(html);
    assert forall i :: 0 <= i < |tags| ==> !(IsMissing(tags[i]) && IsWarned(tags[i])) by {
      forall i | 0 <= i < |tags| {
        ScanRecord(html, i);
      }
    }
    DisjointCounts(tags, IsMissing, IsWarned);
    ScanResult(url, scanDate, ClassifyCms(html), tags, Recommendations(tags))
  }

}
